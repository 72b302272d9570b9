/** The SQLite database behind the repositories, as in-memory tables.
    Each table is a map from its key to its row; the foreign keys that the
    schema declares (and that the connection switches on) are part of
    `Valid`. Visits are keyed by schedule id, which the schema makes UNIQUE. */
module Db {
  import opened Wrappers
  import opened Models

  /** A row of the clients table; email, phone and notes may be NULL. */
  datatype ClientRow = ClientRow(
    id: int,
    name: string,
    email: Option<string>,
    phone: Option<string>,
    address: string,
    city: string,
    state: string,
    zipCode: string,
    latitude: real,
    longitude: real,
    notes: Option<string>,
    isActive: bool)

  /** A row of the schedules table. */
  datatype ScheduleRow = ScheduleRow(
    id: int,
    clientId: int,
    serviceName: string,
    caregiverId: int,
    startTime: Instant,
    endTime: Instant,
    status: string,
    notes: string)

  /** The message SQLite gives when a write breaks a foreign key. */
  const ForeignKeyFailed := "FOREIGN KEY constraint failed"

  /* The constraints of the schema, each stated for one key (or one pair of
     keys) of the tables it reads, so that a proof about `Valid` looks only
     at the rows it names. */

  /** A client row is stored under its own id, below the next id. */
  ghost predicate ClientOk(clients: map<int, ClientRow>, nextClientId: int, k: int) {
    k in clients ==> clients[k].id == k && k < nextClientId
  }

  /** A schedule row is stored under its own id, and its client exists. */
  ghost predicate ScheduleOk(schedules: map<int, ScheduleRow>, clients: map<int, ClientRow>, k: int) {
    k in schedules ==> schedules[k].id == k && schedules[k].clientId in clients
  }

  /** A visit row is stored under its schedule's id, the schedule exists, and
      the visit's own id is below the next id. */
  ghost predicate VisitOk(visits: map<int, Visit>, schedules: map<int, ScheduleRow>, nextVisitId: int, k: int) {
    k in visits ==> visits[k].scheduleId == k && k in schedules && visits[k].id < nextVisitId
  }

  /** Visit ids are a primary key: two rows with one id are one row. */
  ghost predicate VisitIdsDistinct(visits: map<int, Visit>, k: int, k': int) {
    k in visits && k' in visits && visits[k].id == visits[k'].id ==> k == k'
  }

  /** A task row is stored under its own id, and its schedule exists. */
  ghost predicate TaskOk(tasks: map<int, Task>, schedules: map<int, ScheduleRow>, k: int) {
    k in tasks ==> tasks[k].id == k && tasks[k].scheduleId in schedules
  }

  class Database {
    var clients: map<int, ClientRow>
    var schedules: map<int, ScheduleRow>
    var visits: map<int, Visit>
    var tasks: map<int, Task>
    /** The next AUTOINCREMENT ids of the clients and visits tables. */
    var nextClientId: int
    var nextVisitId: int

    /** The constraints of the schema, row by row. */
    ghost predicate Valid()
      reads this
    {
      (forall k :: ClientOk(clients, nextClientId, k)) &&
      (forall k :: ScheduleOk(schedules, clients, k)) &&
      (forall k :: VisitOk(visits, schedules, nextVisitId, k)) &&
      (forall k, k' :: VisitIdsDistinct(visits, k, k')) &&
      (forall k :: TaskOk(tasks, schedules, k))
    }

    constructor ()
      ensures Valid()
      ensures clients == map[] && schedules == map[] && visits == map[] && tasks == map[]
    {
      clients, schedules, visits, tasks := map[], map[], map[], map[];
      nextClientId, nextVisitId := 1, 1;
    }
  }

  /** A client row as the repositories scan it: a NULL email, phone or notes
      column leaves the field at Go's zero value, the empty string. */
  function ScanClient(row: ClientRow): (c: Client)
    ensures c.id == row.id && c.name == row.name && c.address == row.address && c.city == row.city
    ensures c.state == row.state && c.zipCode == row.zipCode && c.latitude == row.latitude
    ensures c.longitude == row.longitude && c.isActive == row.isActive
    ensures row.email.None? ==> c.email == ""
    ensures row.phone.None? ==> c.phone == ""
    ensures row.notes.None? ==> c.notes == ""
    ensures row.email.Some? ==> c.email == row.email.value
    ensures row.phone.Some? ==> c.phone == row.phone.value
    ensures row.notes.Some? ==> c.notes == row.notes.value
  {
    Client(row.id, row.name, row.email.GetOr(""), row.phone.GetOr(""), row.address, row.city, row.state,
           row.zipCode, row.latitude, row.longitude, row.notes.GetOr(""), row.isActive)
  }

  /** The row the client repository's INSERT and UPDATE write: every string
      is bound as a (non-NULL) text value. */
  function ClientRowOf(c: Client): ClientRow {
    ClientRow(c.id, c.name, Some(c.email), Some(c.phone), c.address, c.city, c.state, c.zipCode,
              c.latitude, c.longitude, Some(c.notes), c.isActive)
  }

  /** What is written is read back unchanged. */
  lemma ScanClientRowOf(c: Client)
    ensures ScanClient(ClientRowOf(c)) == c
  {
  }

  /** The schedules that refer to a client. */
  function SchedulesOf(schedules: map<int, ScheduleRow>, clientId: int): (r: set<int>)
    ensures forall k :: k in r <==> k in schedules && schedules[k].clientId == clientId
  {
    set k | k in schedules && schedules[k].clientId == clientId
  }
}
