/** The schedule service (backend/internal/services/schedule_service.go):
    the start, end and cancel transitions of a schedule, which drive the
    visit record through the visits repository and then rewrite the
    schedule's status; the status shown for today's schedules, derived from
    the visit and the clock; and the enrichment of each listed schedule. */
module ScheduleService {
  import opened Wrappers
  import opened Models
  import opened Db
  import ScheduleRepo
  import VisitRepo
  import TaskRepo

  /** How early before its start a visit may begin: 30 minutes, in seconds. */
  const EarlyStartWindow: int := 30 * 60

  /** The failures of the statements one transition runs, in order: the
      schedule lookup, the visit lookup, the visit write and the schedule
      write. */
  datatype Faults = Faults(
    getSchedule: Option<string>,
    visitLookup: Option<string>,
    visitWrite: Option<string>,
    updateSchedule: Option<string>)

  /** The status shown for a schedule: a completed or in-progress visit
      decides it; otherwise a schedule past its end with no started visit is
      missed, and any other is scheduled. The stored status plays no part. */
  function DerivedStatus(visit: Option<Visit>, endTime: Instant, now: Instant): string {
    match visit
    case Some(v) =>
      if v.status == "completed" then "completed"
      else if v.status == "in_progress" then "in_progress"
      else if now > endTime && v.startTime.None? then "missed"
      else "scheduled"
    case None =>
      if now > endTime then "missed" else "scheduled"
  }

  /** `updateScheduleStatus`: three early returns and a default. */
  method UpdateScheduleStatus(s: Schedule, now: Instant) returns (s': Schedule)
    ensures s' == s.(status := DerivedStatus(s.visit, s.endTime, now))
  {
    if s.visit.Some? && s.visit.value.status == "completed" {
      return s.(status := "completed");
    }
    if s.visit.Some? && s.visit.value.status == "in_progress" {
      return s.(status := "in_progress");
    }
    if now > s.endTime && (s.visit.None? || s.visit.value.startTime.None?) {
      return s.(status := "missed");
    }
    s' := s.(status := "scheduled");
  }

  /** What `updateScheduleStatus` promises: a completed visit wins whatever
      the time, then an in-progress one; otherwise missed exactly when the end
      has passed and nothing was started. The result is always a schedule
      status. */
  lemma DerivedStatusCases(visit: Option<Visit>, endTime: Instant, now: Instant)
    ensures visit.Some? && visit.value.status == "completed" ==> DerivedStatus(visit, endTime, now) == "completed"
    ensures visit.Some? && visit.value.status == "in_progress" ==> DerivedStatus(visit, endTime, now) == "in_progress"
    ensures (visit.None? || visit.value.status !in {"completed", "in_progress"}) ==>
      (DerivedStatus(visit, endTime, now) == "missed" <==> now > endTime && (visit.None? || visit.value.startTime.None?))
    ensures (visit.None? || visit.value.status !in {"completed", "in_progress"}) ==>
      DerivedStatus(visit, endTime, now) in {"missed", "scheduled"}
    ensures DerivedStatus(visit, endTime, now) in ScheduleStatuses
  {
  }

  /** Re-deriving the status of a schedule whose status was just derived, at
      the same instant, changes nothing. */
  lemma DerivedStatusIdempotent(s: Schedule, now: Instant)
    ensures var t := s.(status := DerivedStatus(s.visit, s.endTime, now));
      t.(status := DerivedStatus(t.visit, t.endTime, now)) == t
  {
  }

  /** `enrichSchedule`: attaches the visit, then the tasks. A failed visit
      lookup returns before the tasks are read. */
  function Enrich(db: Database, s: Schedule, visitFault: Option<string>, taskFault: Option<string>): (r: (Schedule, Outcome))
    reads db
    ensures visitFault.Some? ==> r == (s, Err(Wrap("failed to get visit", Wrap("failed to get visit", visitFault.value))))
    ensures visitFault.None? ==> r.0.visit == (if s.id in db.visits then Some(db.visits[s.id]) else None)
    ensures visitFault.None? && taskFault.Some? ==>
      r.0.tasks == s.tasks && r.1 == Err(Wrap("failed to get tasks", Wrap("failed to query tasks", taskFault.value)))
    ensures visitFault.None? && taskFault.None? ==>
      r.1 == Done && r.0.tasks == TaskRepo.GetByScheduleID(db, s.id, None).value
    ensures r.0.(visit := s.visit, tasks := s.tasks) == s
  {
    var visit := VisitRepo.GetByScheduleID(db, s.id, visitFault);
    if visit.Err? then (s, Err(Wrap("failed to get visit", visit.msg)))
    else
      var s1 := s.(visit := visit.value);
      var tasks := TaskRepo.GetByScheduleID(db, s.id, taskFault);
      if tasks.Err? then (s1, Err(Wrap("failed to get tasks", tasks.msg)))
      else (s1.(tasks := tasks.value), Done)
  }

  /** The fault of the i-th of a run of statements; none past the end. */
  function FaultAt(faults: seq<Option<string>>, i: nat): Option<string> {
    if i < |faults| then faults[i] else None
  }

  /** One schedule of today's list, as the service returns it: enriched
      (a failed enrichment is ignored), then its status derived. */
  function TodayEntry(db: Database, s: Schedule, visitFault: Option<string>, taskFault: Option<string>, now: Instant): Schedule
    reads db
  {
    var e := Enrich(db, s, visitFault, taskFault).0;
    e.(status := DerivedStatus(e.visit, e.endTime, now))
  }

  /** The second loop of `GetTodaySchedules`: every schedule's status is
      derived in place, in order. */
  method DeriveStatuses(schedules: seq<Schedule>, now: Instant) returns (out: seq<Schedule>)
    ensures |out| == |schedules|
    ensures forall j | 0 <= j < |schedules| ::
      out[j] == schedules[j].(status := DerivedStatus(schedules[j].visit, schedules[j].endTime, now))
  {
    out := schedules;
    var i := 0;
    while i < |out|
      invariant 0 <= i <= |out| == |schedules|
      invariant forall j | 0 <= j < i ::
        out[j] == schedules[j].(status := DerivedStatus(schedules[j].visit, schedules[j].endTime, now))
      invariant forall j | i <= j < |out| :: out[j] == schedules[j]
    {
      var updated := UpdateScheduleStatus(out[i], now);
      out := out[i := updated];
      i := i + 1;
    }
  }

  /** `GetTodaySchedules`: today's schedules from the repository, then one
      loop enriching every schedule and a second deriving every status. The
      repository's rows and the enrichment faults of schedule i are inputs. */
  method GetTodaySchedules(db: Database, caregiverId: int, today: Date, now: Instant, queryFault: Option<string>,
                           rows: seq<(ScheduleRow, Option<ClientRow>)>,
                           visitFaults: seq<Option<string>>, taskFaults: seq<Option<string>>)
    returns (r: Result<seq<Schedule>>)
    ensures queryFault.Some? ==>
      r == Err(Wrap("failed to get today's schedules", Wrap("failed to query schedules", queryFault.value)))
    ensures queryFault.None? ==> (r.Ok? <==> forall i | 0 <= i < |rows| :: rows[i].1.Some?)
    ensures r.Ok? ==> (|r.value| == |rows| &&
      forall i | 0 <= i < |rows| :: rows[i].1.Some? &&
        r.value[i] == TodayEntry(db, ScheduleRepo.ScanSchedule(rows[i].0, rows[i].1.value),
                                 FaultAt(visitFaults, i), FaultAt(taskFaults, i), now))
  {
    var query, args, listed := ScheduleRepo.GetToday(caregiverId, today, queryFault, rows);
    if listed.Err? {
      return Err(Wrap("failed to get today's schedules", listed.msg));
    }
    var enriched := EnrichAll(db, listed.value, visitFaults, taskFaults);
    var schedules := DeriveStatuses(enriched, now);
    r := Ok(schedules);
    forall i | 0 <= i < |rows|
      ensures r.value[i] == TodayEntry(db, ScheduleRepo.ScanSchedule(rows[i].0, rows[i].1.value),
                                       FaultAt(visitFaults, i), FaultAt(taskFaults, i), now)
    {
      assert listed.value[i] == ScheduleRepo.ScanSchedule(rows[i].0, rows[i].1.value);
      assert enriched[i] == Enrich(db, listed.value[i], FaultAt(visitFaults, i), FaultAt(taskFaults, i)).0;
    }
  }

  /** The first loop of `GetTodaySchedules`: every schedule is enriched in
      place, in order; a failed enrichment leaves what it had attached so
      far and the loop goes on. */
  method EnrichAll(db: Database, schedules: seq<Schedule>, visitFaults: seq<Option<string>>,
                   taskFaults: seq<Option<string>>) returns (out: seq<Schedule>)
    ensures |out| == |schedules|
    ensures forall j | 0 <= j < |schedules| ::
      out[j] == Enrich(db, schedules[j], FaultAt(visitFaults, j), FaultAt(taskFaults, j)).0
  {
    out := schedules;
    var i := 0;
    while i < |out|
      invariant 0 <= i <= |out| == |schedules|
      invariant forall j | 0 <= j < i :: out[j] == Enrich(db, schedules[j], FaultAt(visitFaults, j), FaultAt(taskFaults, j)).0
      invariant forall j | i <= j < |out| :: out[j] == schedules[j]
    {
      var enriched := Enrich(db, out[i], FaultAt(visitFaults, i), FaultAt(taskFaults, i));
      out := out[i := enriched.0];
      i := i + 1;
    }
  }

  /** The lookup that opens every transition: a repository error is wrapped
      once more, and a missing row is "schedule not found". */
  function Lookup(schedules: map<int, ScheduleRow>, scheduleId: int, fault: Option<string>): Outcome {
    if fault.Some? then Err(Wrap("failed to get schedule", Wrap("failed to get schedule", fault.value)))
    else if scheduleId !in schedules then Err("schedule not found")
    else Done
  }

  /** The lookup as each transition runs it, returning the schedule found. */
  method FindSchedule(db: Database, scheduleId: int, fault: Option<string>) returns (r: Result<Schedule>)
    requires db.Valid()
    ensures r.Ok? <==> Lookup(db.schedules, scheduleId, fault) == Done
    ensures r.Err? ==> Lookup(db.schedules, scheduleId, fault) == Err(r.msg)
    ensures r.Ok? ==> r.value.id == scheduleId && ScheduleRepo.ScheduleRowOf(r.value) == db.schedules[scheduleId]
  {
    var found := ScheduleRepo.GetByID(db, scheduleId, fault);
    if found.Err? {
      return Err(Wrap("failed to get schedule", found.msg));
    }
    if found.value.None? {
      return Err("schedule not found");
    }
    assert ScheduleOk(db.schedules, db.clients, scheduleId);
    ScheduleRepo.ScanThenWrite(db.schedules[scheduleId], db.clients[db.schedules[scheduleId].clientId]);
    r := Ok(found.value.value);
  }

  /** The error the schedule write of a transition reports; the foreign key
      cannot fail on a consistent database. */
  function UpdateResult(fault: Option<string>): Outcome {
    if fault.Some? then Err(Wrap("failed to update schedule status", Wrap("failed to update schedule", fault.value)))
    else Done
  }

  /** The row of a schedule with its status replaced. */
  function WithStatus(schedules: map<int, ScheduleRow>, scheduleId: int, status: string): map<int, ScheduleRow>
    requires scheduleId in schedules
  {
    schedules[scheduleId := schedules[scheduleId].(status := status)]
  }

  /** The last step of every transition: the schedule read at the start is
      written back with a new status, and a failure is wrapped once more. */
  method SetStatus(db: Database, schedule: Schedule, status: string, fault: Option<string>) returns (err: Outcome)
    requires db.Valid()
    requires schedule.id in db.schedules && ScheduleRepo.ScheduleRowOf(schedule) == db.schedules[schedule.id]
    modifies db`schedules
    ensures db.Valid()
    ensures err == UpdateResult(fault)
    ensures db.schedules == if err == Done then WithStatus(old(db.schedules), schedule.id, status) else old(db.schedules)
  {
    ScheduleRepo.WriteStatus(schedule, status);
    assert ScheduleOk(db.schedules, db.clients, schedule.id);
    var updateErr := ScheduleRepo.Update(db, schedule.(status := status), fault);
    if updateErr.Err? {
      return Err(Wrap("failed to update schedule status", updateErr.msg));
    }
    OkIsDone(updateErr);
    err := Done;
  }

  /** The checks `StartVisit` makes before touching the visit: the lookup,
      then the 30-minute early-start window. */
  function StartGuard(schedules: map<int, ScheduleRow>, scheduleId: int, now: Instant, f: Faults): Outcome {
    var found := Lookup(schedules, scheduleId, f.getSchedule);
    if found.Err? then found
    else if now < schedules[scheduleId].startTime - EarlyStartWindow then
      Err("cannot start visit more than 30 minutes before scheduled time")
    else Done
  }

  /** Whether `StartVisit` gets as far as a successful visit write. */
  predicate StartWritesVisit(schedules: map<int, ScheduleRow>, visits: map<int, Visit>, scheduleId: int,
                             now: Instant, f: Faults)
  {
    StartGuard(schedules, scheduleId, now, f) == Done &&
    VisitRepo.StartResult(schedules, visits, scheduleId, f.visitLookup, f.visitWrite) == Done
  }

  /** What `StartVisit` returns, from the tables before it. */
  function StartResult(schedules: map<int, ScheduleRow>, visits: map<int, Visit>, scheduleId: int,
                       now: Instant, f: Faults): Outcome
  {
    var guard := StartGuard(schedules, scheduleId, now, f);
    if guard.Err? then guard
    else
      var visit := VisitRepo.StartResult(schedules, visits, scheduleId, f.visitLookup, f.visitWrite);
      if visit.Err? then Err(Wrap("failed to start visit", visit.msg))
      else UpdateResult(f.updateSchedule)
  }

  /** `StartVisit`: looks the schedule up, refuses a start more than 30
      minutes early, starts the visit, and only then marks the schedule
      in_progress. The two writes are separate statements: a failed schedule
      write leaves the visit started. */
  method StartVisit(db: Database, scheduleId: int, req: VisitStartRequest, now: Instant, f: Faults)
    returns (err: Outcome)
    requires db.Valid()
    modifies db`visits, db`nextVisitId, db`schedules
    ensures db.Valid()
    ensures err == StartResult(old(db.schedules), old(db.visits), scheduleId, now, f)
    ensures db.visits ==
      if StartWritesVisit(old(db.schedules), old(db.visits), scheduleId, now, f) then
        VisitRepo.StartedVisits(old(db.visits), old(db.nextVisitId), scheduleId, req.latitude, req.longitude, now)
      else old(db.visits)
    ensures db.nextVisitId ==
      if StartWritesVisit(old(db.schedules), old(db.visits), scheduleId, now, f) && scheduleId !in old(db.visits) then
        old(db.nextVisitId) + 1
      else old(db.nextVisitId)
    ensures db.schedules ==
      if err == Done then WithStatus(old(db.schedules), scheduleId, "in_progress") else old(db.schedules)
  {
    var found := FindSchedule(db, scheduleId, f.getSchedule);
    if found.Err? {
      return Err(found.msg);
    }
    var schedule := found.value;
    if now < schedule.startTime - EarlyStartWindow {
      return Err("cannot start visit more than 30 minutes before scheduled time");
    }
    var visitErr := VisitRepo.StartVisit(db, scheduleId, req.latitude, req.longitude, now, f.visitLookup, f.visitWrite);
    if visitErr.Err? {
      return Err(Wrap("failed to start visit", visitErr.msg));
    }
    OkIsDone(visitErr);
    err := SetStatus(db, schedule, "in_progress", f.updateSchedule);
  }

  /** A start succeeds exactly when no statement fails, the schedule exists
      and the start is at most 30 minutes early; the visit write without the
      schedule write happens exactly when the schedule write fails. */
  lemma StartResultDone(schedules: map<int, ScheduleRow>, visits: map<int, Visit>, scheduleId: int,
                        now: Instant, f: Faults)
    requires visits.Keys <= schedules.Keys
    ensures StartResult(schedules, visits, scheduleId, now, f) == Done <==>
      f == Faults(None, None, None, None) && scheduleId in schedules &&
      now >= schedules[scheduleId].startTime - EarlyStartWindow
    ensures StartWritesVisit(schedules, visits, scheduleId, now, f) && StartResult(schedules, visits, scheduleId, now, f) != Done <==>
      StartWritesVisit(schedules, visits, scheduleId, now, f) && f.updateSchedule.Some?
  {
    VisitRepo.StartResultDone(schedules, visits, scheduleId, f.visitLookup, f.visitWrite);
  }

  /** The errors a start reports before it touches the visit. */
  lemma StartGuardErrors(schedules: map<int, ScheduleRow>, visits: map<int, Visit>, scheduleId: int,
                         now: Instant, f: Faults)
    ensures f.getSchedule.Some? ==>
      StartResult(schedules, visits, scheduleId, now, f) ==
        Err(Wrap("failed to get schedule", Wrap("failed to get schedule", f.getSchedule.value)))
    ensures f.getSchedule.None? && scheduleId !in schedules ==>
      StartResult(schedules, visits, scheduleId, now, f) == Err("schedule not found")
    ensures f.getSchedule.None? && scheduleId in schedules && now < schedules[scheduleId].startTime - EarlyStartWindow ==>
      StartResult(schedules, visits, scheduleId, now, f) ==
        Err("cannot start visit more than 30 minutes before scheduled time")
    ensures StartGuard(schedules, scheduleId, now, f) != Done ==> !StartWritesVisit(schedules, visits, scheduleId, now, f)
  {
  }

  /** What `StartVisit` returns with the visit INSERT as written. */
  function StartResultAsWritten(schedules: map<int, ScheduleRow>, visits: map<int, Visit>, scheduleId: int,
                                now: Instant, f: Faults, refusal: string): Outcome
  {
    var guard := StartGuard(schedules, scheduleId, now, f);
    if guard.Err? then guard
    else
      var visit := VisitRepo.StartResultAsWritten(schedules, visits, scheduleId, f.visitLookup, f.visitWrite, refusal);
      if visit.Err? then Err(Wrap("failed to start visit", visit.msg))
      else UpdateResult(f.updateSchedule)
  }

  /** As written, only a schedule that already has a visit record can be
      started: a first start within the window, with no statement failing,
      reports the arity error and the schedule is not marked in_progress. */
  lemma StartAsWrittenNeedsVisit(schedules: map<int, ScheduleRow>, visits: map<int, Visit>, scheduleId: int,
                                 now: Instant, f: Faults, refusal: string)
    ensures StartResultAsWritten(schedules, visits, scheduleId, now, f, refusal) == Done <==>
      f == Faults(None, None, None, None) && scheduleId in schedules &&
      now >= schedules[scheduleId].startTime - EarlyStartWindow && scheduleId in visits
    ensures (f.getSchedule.None? && f.visitLookup.None? && scheduleId in schedules &&
             now >= schedules[scheduleId].startTime - EarlyStartWindow && scheduleId !in visits) ==>
      StartResultAsWritten(schedules, visits, scheduleId, now, f, refusal) ==
        Err(Wrap("failed to start visit", Wrap("failed to create visit", refusal)))
    ensures scheduleId in visits ==>
      StartResultAsWritten(schedules, visits, scheduleId, now, f, refusal) == StartResult(schedules, visits, scheduleId, now, f)
  {
    VisitRepo.StartAsWrittenNeedsVisit(schedules, visits, scheduleId, f.visitLookup, f.visitWrite, refusal);
  }

  /** Whether `EndVisit` gets as far as a successful visit write. */
  predicate EndWritesVisit(schedules: map<int, ScheduleRow>, visits: map<int, Visit>, scheduleId: int, f: Faults) {
    Lookup(schedules, scheduleId, f.getSchedule) == Done &&
    VisitRepo.EndResult(visits, scheduleId, f.visitLookup, f.visitWrite) == Done
  }

  /** What `EndVisit` returns, from the tables before it. */
  function EndResult(schedules: map<int, ScheduleRow>, visits: map<int, Visit>, scheduleId: int, f: Faults): Outcome {
    var found := Lookup(schedules, scheduleId, f.getSchedule);
    if found.Err? then found
    else
      var visit := VisitRepo.EndResult(visits, scheduleId, f.visitLookup, f.visitWrite);
      if visit.Err? then Err(Wrap("failed to end visit", visit.msg))
      else UpdateResult(f.updateSchedule)
  }

  /** `EndVisit`: looks the schedule up, ends the visit, and only then marks
      the schedule completed. */
  method EndVisit(db: Database, scheduleId: int, req: VisitEndRequest, now: Instant, f: Faults)
    returns (err: Outcome)
    requires db.Valid()
    modifies db`visits, db`schedules
    ensures db.Valid()
    ensures err == EndResult(old(db.schedules), old(db.visits), scheduleId, f)
    ensures db.visits ==
      if EndWritesVisit(old(db.schedules), old(db.visits), scheduleId, f) then
        old(db.visits)[scheduleId := VisitRepo.Ended(old(db.visits)[scheduleId], req.latitude, req.longitude, req.notes, now)]
      else old(db.visits)
    ensures db.schedules ==
      if err == Done then WithStatus(old(db.schedules), scheduleId, "completed") else old(db.schedules)
  {
    var found := FindSchedule(db, scheduleId, f.getSchedule);
    if found.Err? {
      return Err(found.msg);
    }
    var schedule := found.value;
    var visitErr := VisitRepo.EndVisit(db, scheduleId, req.latitude, req.longitude, req.notes, now, f.visitLookup, f.visitWrite);
    if visitErr.Err? {
      return Err(Wrap("failed to end visit", visitErr.msg));
    }
    OkIsDone(visitErr);
    err := SetStatus(db, schedule, "completed", f.updateSchedule);
  }

  /** An end succeeds exactly when no statement fails and the schedule has a
      started visit. */
  lemma EndResultDone(schedules: map<int, ScheduleRow>, visits: map<int, Visit>, scheduleId: int, f: Faults)
    ensures EndResult(schedules, visits, scheduleId, f) == Done <==>
      f == Faults(None, None, None, None) && scheduleId in schedules &&
      scheduleId in visits && visits[scheduleId].startTime.Some?
    ensures EndWritesVisit(schedules, visits, scheduleId, f) && EndResult(schedules, visits, scheduleId, f) != Done <==>
      EndWritesVisit(schedules, visits, scheduleId, f) && f.updateSchedule.Some?
  {
    VisitRepo.EndResultDone(visits, scheduleId, f.visitLookup, f.visitWrite);
  }

  /** The check `CancelVisit` makes before touching the visit: the lookup,
      then the status, which must be scheduled or in_progress. */
  function CancelGuard(schedules: map<int, ScheduleRow>, scheduleId: int, f: Faults): Outcome {
    var found := Lookup(schedules, scheduleId, f.getSchedule);
    if found.Err? then found
    else if schedules[scheduleId].status != "scheduled" && schedules[scheduleId].status != "in_progress" then
      Err("visit cannot be cancelled in status: " + schedules[scheduleId].status)
    else Done
  }

  /** Whether `CancelVisit` resets a visit: only an in-progress schedule's. */
  predicate CancelWritesVisit(schedules: map<int, ScheduleRow>, visits: map<int, Visit>, scheduleId: int, f: Faults) {
    CancelGuard(schedules, scheduleId, f) == Done && schedules[scheduleId].status == "in_progress" &&
    VisitRepo.CancelResult(visits, scheduleId, f.visitLookup, f.visitWrite) == Done
  }

  /** What `CancelVisit` returns, from the tables before it. */
  function CancelResult(schedules: map<int, ScheduleRow>, visits: map<int, Visit>, scheduleId: int, f: Faults): Outcome {
    var guard := CancelGuard(schedules, scheduleId, f);
    if guard.Err? then guard
    else
      var visit := if schedules[scheduleId].status == "in_progress" then
        VisitRepo.CancelResult(visits, scheduleId, f.visitLookup, f.visitWrite) else Done;
      if visit.Err? then Err(Wrap("failed to cancel visit", visit.msg))
      else UpdateResult(f.updateSchedule)
  }

  /** `CancelVisit`: only a scheduled or in-progress schedule can be
      cancelled; an in-progress one has its visit reset first; the schedule
      ends up scheduled. */
  method CancelVisit(db: Database, scheduleId: int, f: Faults) returns (err: Outcome)
    requires db.Valid()
    modifies db`visits, db`schedules
    ensures db.Valid()
    ensures err == CancelResult(old(db.schedules), old(db.visits), scheduleId, f)
    ensures db.visits ==
      if CancelWritesVisit(old(db.schedules), old(db.visits), scheduleId, f) then
        old(db.visits)[scheduleId := VisitRepo.Cancelled(old(db.visits)[scheduleId])]
      else old(db.visits)
    ensures db.schedules ==
      if err == Done then WithStatus(old(db.schedules), scheduleId, "scheduled") else old(db.schedules)
  {
    var found := FindSchedule(db, scheduleId, f.getSchedule);
    if found.Err? {
      return Err(found.msg);
    }
    var schedule := found.value;
    if schedule.status != "scheduled" && schedule.status != "in_progress" {
      return Err("visit cannot be cancelled in status: " + schedule.status);
    }
    if schedule.status == "in_progress" {
      var visitErr := VisitRepo.CancelVisit(db, scheduleId, f.visitLookup, f.visitWrite);
      if visitErr.Err? {
        return Err(Wrap("failed to cancel visit", visitErr.msg));
      }
      OkIsDone(visitErr);
    }
    err := SetStatus(db, schedule, "scheduled", f.updateSchedule);
  }

  /** A cancel succeeds exactly when no statement it runs fails and the
      schedule is scheduled, or in progress with an in-progress visit; a
      scheduled schedule's visit is never read. Any other status is refused
      with the status in the message. */
  lemma CancelResultDone(schedules: map<int, ScheduleRow>, visits: map<int, Visit>, scheduleId: int, f: Faults)
    ensures CancelResult(schedules, visits, scheduleId, f) == Done <==>
      f.getSchedule.None? && f.updateSchedule.None? && scheduleId in schedules &&
      (schedules[scheduleId].status == "scheduled" ||
       (schedules[scheduleId].status == "in_progress" && f.visitLookup.None? && f.visitWrite.None? &&
        scheduleId in visits && visits[scheduleId].status == "in_progress"))
    ensures f.getSchedule.None? && scheduleId in schedules &&
            schedules[scheduleId].status != "scheduled" && schedules[scheduleId].status != "in_progress" ==>
      CancelResult(schedules, visits, scheduleId, f) ==
        Err("visit cannot be cancelled in status: " + schedules[scheduleId].status)
  {
    VisitRepo.CancelResultDone(visits, scheduleId, f.visitLookup, f.visitWrite);
  }
}
