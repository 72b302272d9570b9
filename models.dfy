/** The backend's records and request bodies (backend/internal/models/models.go).
    Optional Go pointers become `Option`; instants are whole seconds; the
    database-maintained created_at/updated_at columns are not modelled. */
module Models {
  import opened Wrappers

  /** A point in time, in seconds. */
  type Instant = int

  const ScheduleStatuses: set<string> := {"scheduled", "in_progress", "completed", "missed"}
  const VisitStatuses: set<string> := {"not_started", "in_progress", "completed"}
  const TaskStatuses: set<string> := {"pending", "completed", "not_completed"}
  const TaskUpdateStatuses: set<string> := {"completed", "not_completed"}

  datatype Client = Client(
    id: int,
    name: string,
    email: string,
    phone: string,
    address: string,
    city: string,
    state: string,
    zipCode: string,
    latitude: real,
    longitude: real,
    notes: string,
    isActive: bool)

  /** The log of one visit; at most one per schedule. */
  datatype Visit = Visit(
    id: int,
    scheduleId: int,
    startTime: Option<Instant>,
    endTime: Option<Instant>,
    startLatitude: Option<real>,
    startLongitude: Option<real>,
    endLatitude: Option<real>,
    endLongitude: Option<real>,
    status: string,
    notes: string)

  datatype Task = Task(
    id: int,
    scheduleId: int,
    title: string,
    description: string,
    status: string,
    reason: string,
    completedAt: Option<Instant>)

  /** A caregiver's planned visit to a client, with the related client, visit
      and tasks that the service attaches. */
  datatype Schedule = Schedule(
    id: int,
    clientId: int,
    serviceName: string,
    caregiverId: int,
    startTime: Instant,
    endTime: Instant,
    status: string,
    notes: string,
    client: Option<Client>,
    visit: Option<Visit>,
    tasks: seq<Task>)

  datatype VisitStartRequest = VisitStartRequest(latitude: real, longitude: real)
  datatype VisitEndRequest = VisitEndRequest(latitude: real, longitude: real, notes: string)
  datatype TaskUpdateRequest = TaskUpdateRequest(status: string, reason: string)

  /** A calendar date as `time.Time.Format("2006-01-02")` sees it. */
  datatype Date = Date(year: nat, month: nat, day: nat)

  datatype ScheduleFilter = ScheduleFilter(
    caregiverId: Option<int>,
    date: Option<Date>,
    status: Option<string>,
    limit: Option<int>,
    offset: Option<int>)

  datatype ClientCreateRequest = ClientCreateRequest(
    name: string,
    email: string,
    phone: string,
    address: string,
    city: string,
    state: string,
    zipCode: string,
    latitude: real,
    longitude: real,
    notes: string)

  /** Every field optional: None leaves the stored value unchanged. */
  datatype ClientUpdateRequest = ClientUpdateRequest(
    name: Option<string>,
    email: Option<string>,
    phone: Option<string>,
    address: Option<string>,
    city: Option<string>,
    state: Option<string>,
    zipCode: Option<string>,
    latitude: Option<real>,
    longitude: Option<real>,
    notes: Option<string>,
    isActive: Option<bool>)

  datatype ClientFilter = ClientFilter(
    isActive: Option<bool>,
    city: Option<string>,
    state: Option<string>,
    search: Option<string>,
    limit: Option<int>,
    offset: Option<int>)

  predicate ValidLatitude(x: real) { -90.0 <= x <= 90.0 }
  predicate ValidLongitude(x: real) { -180.0 <= x <= 180.0 }

  /** The `validate` tags declared on the records and requests. The HTTP
      binding does not enforce them; the services check what they check. */
  predicate ScheduleTagsHold(s: Schedule) {
    s.status in ScheduleStatuses
  }

  predicate VisitTagsHold(v: Visit) {
    v.status in VisitStatuses
  }

  predicate TaskTagsHold(t: Task) {
    t.title != "" && t.status in TaskStatuses && (t.status == "not_completed" ==> t.reason != "")
  }

  predicate TaskUpdateTagsHold(r: TaskUpdateRequest) {
    r.status in TaskUpdateStatuses
  }

  predicate StartRequestTagsHold(r: VisitStartRequest) {
    ValidLatitude(r.latitude) && ValidLongitude(r.longitude)
  }

  predicate EndRequestTagsHold(r: VisitEndRequest) {
    ValidLatitude(r.latitude) && ValidLongitude(r.longitude)
  }

  /** An update request that supplies no field. */
  const EmptyClientUpdate: ClientUpdateRequest :=
    ClientUpdateRequest(None, None, None, None, None, None, None, None, None, None, None)

  /** The update statuses are the task statuses other than pending. */
  lemma TaskUpdateStatusesAreTaskStatuses()
    ensures TaskUpdateStatuses == TaskStatuses - {"pending"}
  {
  }
}
