/** The Yes/No selection of one task on the clock-out screen
    (frontend/src/components/molecules/TaskItem.tsx): the component state
    `selectedButton` and `reason`, and the three handlers that update it and
    report to the parent. */
module TaskItem {
  import opened Wrappers
  import opened Text
  import opened AppTypes
  import Script

  datatype Choice = Yes | No

  /** One call of `onStatusChange(taskId, status, reason)`. */
  datatype StatusChange = StatusChange(taskId: int, status: string, reason: Option<string>)

  /** `reason.trim() || undefined`. */
  function TrimmedReason(reason: string): (r: Option<string>)
    ensures r.Some? <==> !AllSpace(reason)
    ensures r.Some? ==> r.value == Trim(reason) && !IsBlank(r.value)
  {
    BlankIffAllSpace(reason);
    var t := Trim(reason);
    if t == "" then None
    else
      TrimmedNotBlank(t);
      Some(t)
  }

  /** A trimmed non-empty string is not blank. */
  lemma TrimmedNotBlank(t: string)
    requires t != "" && !IsSpace(t[0])
    ensures !IsBlank(t)
  {
    BlankIffAllSpace(t);
  }

  /** The selection a task starts with. */
  function InitialChoice(status: string): (c: Option<Choice>)
    ensures c == Some(Yes) <==> status == "completed"
    ensures c == Some(No) <==> status == "not_completed"
    ensures c.None? <==> status !in {"completed", "not_completed"}
  {
    if status == "completed" then Some(Yes)
    else if status == "not_completed" then Some(No)
    else None
  }

  class TaskItemState {
    const task: AppTask
    const disabled: bool
    var selected: Option<Choice>
    var reason: string

    /** `useState(task.reason || '')` and the initial selection. */
    constructor(task: AppTask, disabled: bool)
      ensures this.task == task && this.disabled == disabled
      ensures selected == InitialChoice(task.status)
      ensures reason == (if Script.Truthy(task.reason) then task.reason.value else "")
    {
      this.task := task;
      this.disabled := disabled;
      selected := InitialChoice(task.status);
      reason := if Script.Truthy(task.reason) then task.reason.value else "";
    }

    /** The reason input is rendered only for an enabled item on No. */
    predicate ShowsReasonInput()
      reads this
    {
      !disabled && selected == Some(No)
    }

    /** `handleYesPress`: Yes is selected and completed is reported without
      a reason; the typed reason is kept. */
    method PressYes() returns (e: StatusChange)
      modifies this`selected
      ensures selected == Some(Yes) && !ShowsReasonInput()
      ensures e == StatusChange(task.id, "completed", None)
    {
      selected := Some(Yes);
      e := StatusChange(task.id, "completed", None);
    }

    /** `handleNoPress`: No is selected and not_completed is reported with
      the trimmed reason, or none when it is blank. */
    method PressNo() returns (e: StatusChange)
      modifies this`selected
      ensures selected == Some(No)
      ensures e == StatusChange(task.id, "not_completed", TrimmedReason(reason))
      ensures ShowsReasonInput() <==> !disabled
    {
      selected := Some(No);
      e := StatusChange(task.id, "not_completed", TrimmedReason(reason));
    }

    /** `handleReasonChange`: the reason is stored; it is reported only
      while No is selected. */
    method EditReason(newReason: string) returns (e: Option<StatusChange>)
      modifies this`reason
      ensures reason == newReason
      ensures e.Some? <==> selected == Some(No)
      ensures e.Some? ==> e.value == StatusChange(task.id, "not_completed", TrimmedReason(newReason))
    {
      reason := newReason;
      if selected == Some(No) {
        e := Some(StatusChange(task.id, "not_completed", TrimmedReason(newReason)));
      } else {
        e := None;
      }
    }
  }
}
