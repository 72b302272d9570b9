/** The records the mobile client receives from the API
    (frontend/src/services/types.ts), reduced to the fields its rules read.
    Timestamps arrive as ISO strings; the model holds what `new Date(...)
    .getTime()` makes of them, in milliseconds. */
module AppTypes {
  import opened Wrappers

  datatype Coords = Coords(latitude: real, longitude: real)

  /** `location_status` is read by the schedule card although the API type
      does not declare it; an absent field is `None`. */
  datatype AppVisit = AppVisit(id: int, scheduleId: int, startMs: Option<int>, status: string,
                               locationStatus: Option<string>)

  datatype AppTask = AppTask(id: int, scheduleId: int, name: string, description: string, status: string,
                             reason: Option<string>)

  datatype AppSchedule = AppSchedule(id: int, status: string, startMs: int, clientAddress: Option<string>,
                                     visit: Option<AppVisit>, tasks: Option<seq<AppTask>>)

  /** One entry of the clock-out screen's pending updates and the body of
      `PUT /tasks/:id/status`. */
  datatype TaskUpdate = TaskUpdate(status: string, reason: Option<string>)

  /** The buttons the client's alerts offer. */
  datatype AlertButton = CancelButton | RetryButton | SettingsButton | ProceedButton | OkButton

  function ButtonText(b: AlertButton): string {
    match b
    case CancelButton => "Cancel"
    case RetryButton => "Retry"
    case SettingsButton => "Settings"
    case ProceedButton => "Proceed Without Location"
    case OkButton => "OK"
  }

  /** One `showAlert(title, message, buttons)` call. */
  datatype Alert = Alert(title: string, message: string, buttons: seq<AlertButton>)
}
