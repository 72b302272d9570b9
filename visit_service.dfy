/** The visit service (backend/internal/services/visit_service.go): the
    ordered validation of a visit record, create and update behind that
    validation, lookup by schedule, and ending a started visit. */
module VisitService {
  import opened Wrappers
  import opened Models
  import opened Text
  import opened Db
  import VisitRepo

  /** A present coordinate lies in its range; an absent one is not checked. */
  predicate LatitudeOk(x: Option<real>) {
    x.Some? ==> ValidLatitude(x.value)
  }

  predicate LongitudeOk(x: Option<real>) {
    x.Some? ==> ValidLongitude(x.value)
  }

  /** What a valid visit record is, stated field by field and independent of
      the order in which `validateVisit` checks it. */
  predicate WellFormedVisit(v: Visit) {
    && v.scheduleId > 0
    && v.status in VisitStatuses
    && (v.status == "in_progress" ==> v.startTime.Some? && v.startLatitude.Some? && v.startLongitude.Some?)
    && (v.status == "completed" ==>
          v.startTime.Some? && v.endTime.Some? && v.startLatitude.Some? && v.startLongitude.Some? &&
          v.endLatitude.Some? && v.endLongitude.Some? && v.startTime.value <= v.endTime.value)
    && LatitudeOk(v.startLatitude) && LongitudeOk(v.startLongitude)
    && LatitudeOk(v.endLatitude) && LongitudeOk(v.endLongitude)
  }

  /** The checks a status demands, in source order: nothing for not_started. */
  function StatusFieldsCheck(v: Visit): Outcome {
    if v.status == "in_progress" then
      if v.startTime.None? then Err("start_time is required when status is in_progress")
      else if v.startLatitude.None? || v.startLongitude.None? then Err("start location is required when status is in_progress")
      else Done
    else if v.status == "completed" then
      if v.startTime.None? then Err("start_time is required when status is completed")
      else if v.endTime.None? then Err("end_time is required when status is completed")
      else if v.startLatitude.None? || v.startLongitude.None? then Err("start location is required when status is completed")
      else if v.endLatitude.None? || v.endLongitude.None? then Err("end location is required when status is completed")
      else if v.endTime.value < v.startTime.value then Err("end_time cannot be before start_time")
      else Done
    else Done
  }

  /** The coordinate range checks, start before end, latitude before longitude. */
  function RangeCheck(v: Visit): Outcome {
    if !LatitudeOk(v.startLatitude) then Err("start_latitude must be between -90 and 90")
    else if !LongitudeOk(v.startLongitude) then Err("start_longitude must be between -180 and 180")
    else if !LatitudeOk(v.endLatitude) then Err("end_latitude must be between -90 and 90")
    else if !LongitudeOk(v.endLongitude) then Err("end_longitude must be between -180 and 180")
    else Done
  }

  /** `validateVisit`: the first failing check names the error. */
  function ValidateVisit(v: Visit): Outcome {
    if v.scheduleId <= 0 then Err("schedule_id is required")
    else if v.status == "" then Err("status is required")
    else if v.status !in VisitStatuses then Err("invalid status: " + v.status)
    else if StatusFieldsCheck(v).Err? then StatusFieldsCheck(v)
    else RangeCheck(v)
  }

  /** Validation accepts exactly the well-formed records. */
  lemma ValidateVisitAccepts(v: Visit)
    ensures ValidateVisit(v) == Done <==> WellFormedVisit(v)
  {
    OkIsDone(ValidateVisit(v));
    OkIsDone(StatusFieldsCheck(v));
    OkIsDone(RangeCheck(v));
  }

  /** A missing schedule id is reported before anything else is looked at. */
  lemma ScheduleIdCheckedFirst(v: Visit)
    requires v.scheduleId <= 0
    ensures ValidateVisit(v) == Err("schedule_id is required")
  {
  }

  /** A status outside the three visit statuses is refused, whatever the
      other fields hold, once the schedule id is present. */
  lemma StatusCheckedSecond(v: Visit)
    requires v.scheduleId > 0 && v.status !in VisitStatuses
    ensures ValidateVisit(v) == (if v.status == "" then Err("status is required") else Err("invalid status: " + v.status))
  {
  }

  /** The range checks come last: a record whose status fields are complete
      is refused for a coordinate out of range, and only then. */
  lemma RangeCheckedLast(v: Visit)
    requires v.scheduleId > 0 && v.status in VisitStatuses && StatusFieldsCheck(v) == Done
    ensures ValidateVisit(v) == RangeCheck(v)
    ensures RangeCheck(v) == Done <==>
      LatitudeOk(v.startLatitude) && LongitudeOk(v.startLongitude) && LatitudeOk(v.endLatitude) && LongitudeOk(v.endLongitude)
  {
    OkIsDone(RangeCheck(v));
  }

  /** `GetVisitByScheduleID`: a missing record is (nil, nil). */
  function GetVisitByScheduleID(db: Database, scheduleId: int, fault: Option<string>): (r: Result<Option<Visit>>)
    reads db
    ensures fault.Some? ==> r == Err(Wrap("failed to get visit", Wrap("failed to get visit", fault.value)))
    ensures fault.None? ==> r == Ok(if scheduleId in db.visits then Some(db.visits[scheduleId]) else None)
  {
    var found := VisitRepo.GetByScheduleID(db, scheduleId, fault);
    if found.Err? then Err(Wrap("failed to get visit", found.msg)) else found
  }

  /** What `CreateVisit` returns: the validation error, else the insert's. */
  function CreateResult(schedules: map<int, ScheduleRow>, visits: map<int, Visit>, v: Visit,
                        fault: Option<string>): Outcome
  {
    var valid := ValidateVisit(v);
    if valid.Err? then Err(Wrap("visit validation failed", valid.msg))
    else if fault.Some? then Err(Wrap("failed to create visit", Wrap("failed to create visit", fault.value)))
    else if v.scheduleId !in schedules then Err(Wrap("failed to create visit", Wrap("failed to create visit", ForeignKeyFailed)))
    else if v.scheduleId in visits then
      Err(Wrap("failed to create visit", Wrap("failed to create visit", "UNIQUE constraint failed: visits.schedule_id")))
    else Done
  }

  /** A visit is created only when it is well formed, its schedule exists
      and the schedule has no visit yet. */
  lemma CreateResultDone(schedules: map<int, ScheduleRow>, visits: map<int, Visit>, v: Visit, fault: Option<string>)
    ensures CreateResult(schedules, visits, v, fault) == Done <==>
      WellFormedVisit(v) && fault.None? && v.scheduleId in schedules && v.scheduleId !in visits
  {
    ValidateVisitAccepts(v);
  }

  /** What `CreateVisit` returns with the INSERT as written. */
  function CreateResultAsWritten(schedules: map<int, ScheduleRow>, visits: map<int, Visit>, v: Visit,
                                 fault: Option<string>, refusal: string): Outcome
  {
    var valid := ValidateVisit(v);
    if valid.Err? then Err(Wrap("visit validation failed", valid.msg))
    else
      var created := VisitRepo.CreateOutcomeAsWritten(schedules, visits, v.scheduleId, fault, refusal);
      if created.Err? then Err(Wrap("failed to create visit", created.msg)) else Done
  }

  /** As written, no visit is ever created: an ill-formed one is refused by
      validation as in `CreateResult`, a well-formed one by the arity
      error. */
  lemma CreateAsWrittenFails(schedules: map<int, ScheduleRow>, visits: map<int, Visit>, v: Visit, fault: Option<string>,
                             refusal: string)
    ensures CreateResultAsWritten(schedules, visits, v, fault, refusal) != Done
    ensures WellFormedVisit(v) ==>
      CreateResultAsWritten(schedules, visits, v, fault, refusal) ==
        Err(Wrap("failed to create visit", Wrap("failed to create visit", refusal)))
    ensures !WellFormedVisit(v) ==>
      CreateResultAsWritten(schedules, visits, v, fault, refusal) == CreateResult(schedules, visits, v, fault)
  {
    ValidateVisitAccepts(v);
    VisitRepo.CreateOutcomeAsWrittenFails(schedules, visits, v.scheduleId, fault, refusal);
  }

  /** `CreateVisit`: validation first; the repository is reached only with a
      valid record, and the record gets the next id. */
  method CreateVisit(db: Database, v: Visit, fault: Option<string>) returns (err: Outcome, id: int)
    requires db.Valid()
    modifies db`visits, db`nextVisitId
    ensures db.Valid()
    ensures err == CreateResult(old(db.schedules), old(db.visits), v, fault)
    ensures db.visits == if err == Done then old(db.visits)[v.scheduleId := v.(id := old(db.nextVisitId))] else old(db.visits)
    ensures db.nextVisitId == if err == Done then old(db.nextVisitId) + 1 else old(db.nextVisitId)
    ensures err == Done ==> id == old(db.nextVisitId)
  {
    var valid := ValidateVisit(v);
    if valid.Err? {
      return Err(Wrap("visit validation failed", valid.msg)), 0;
    }
    var createErr;
    createErr, id := VisitRepo.Create(db, v, fault);
    if createErr.Err? {
      return Err(Wrap("failed to create visit", createErr.msg)), id;
    }
    OkIsDone(createErr);
    err := Done;
  }

  /** What `UpdateVisit` returns: the validation error, else the update's. */
  function UpdateResult(v: Visit, fault: Option<string>): Outcome {
    var valid := ValidateVisit(v);
    if valid.Err? then Err(Wrap("visit validation failed", valid.msg))
    else if fault.Some? then Err(Wrap("failed to update visit", Wrap("failed to update visit", fault.value)))
    else Done
  }

  /** `UpdateVisit`: validation first; a valid record overwrites the row with
      its id, if there is one. */
  method UpdateVisit(db: Database, v: Visit, fault: Option<string>) returns (err: Outcome)
    requires db.Valid()
    modifies db`visits
    ensures db.Valid()
    ensures err == UpdateResult(v, fault)
    ensures db.visits == if err == Done then VisitRepo.Updated(old(db.visits), v) else old(db.visits)
  {
    var valid := ValidateVisit(v);
    if valid.Err? {
      return Err(Wrap("visit validation failed", valid.msg));
    }
    var updateErr := VisitRepo.Update(db, v, fault);
    if updateErr.Err? {
      return Err(Wrap("failed to update visit", updateErr.msg));
    }
    OkIsDone(updateErr);
    err := Done;
  }

  /** An update reaches the repository exactly when the record is valid. */
  lemma UpdateResultValidates(v: Visit, fault: Option<string>)
    ensures UpdateResult(v, fault) == Done <==> WellFormedVisit(v) && fault.None?
    ensures !WellFormedVisit(v) ==> UpdateResult(v, fault) == Err(Wrap("visit validation failed", ValidateVisit(v).msg))
  {
    ValidateVisitAccepts(v);
  }

  /** What the service's `EndVisit` returns: the checks of the repository's
      transition, with the update's error wrapped once more. */
  function EndResult(visits: map<int, Visit>, scheduleId: int, lookupFault: Option<string>, writeFault: Option<string>): Outcome {
    if lookupFault.Some? then Err(Wrap("failed to get visit", Wrap("failed to get visit", lookupFault.value)))
    else if scheduleId !in visits then Err("visit not found for schedule " + IntToString(scheduleId))
    else if visits[scheduleId].startTime.None? then Err("cannot end visit that hasn't been started")
    else if writeFault.Some? then Err(Wrap("failed to update visit", Wrap("failed to update visit", writeFault.value)))
    else Done
  }

  /** The service and the repository end a visit under the same conditions
      and differ only in how a failed write is worded. */
  lemma EndResultAgrees(visits: map<int, Visit>, scheduleId: int, lookupFault: Option<string>, writeFault: Option<string>)
    ensures EndResult(visits, scheduleId, lookupFault, writeFault) == Done <==>
      VisitRepo.EndResult(visits, scheduleId, lookupFault, writeFault) == Done
    ensures writeFault.None? ==>
      EndResult(visits, scheduleId, lookupFault, writeFault) == VisitRepo.EndResult(visits, scheduleId, lookupFault, writeFault)
  {
  }

  /** `EndVisit`: a missing or unstarted visit is refused with no write; a
      started one becomes completed at the given place. */
  method EndVisit(db: Database, scheduleId: int, latitude: real, longitude: real, notes: string, now: Instant,
                  lookupFault: Option<string>, writeFault: Option<string>) returns (err: Outcome)
    requires db.Valid()
    modifies db`visits
    ensures db.Valid()
    ensures err == EndResult(old(db.visits), scheduleId, lookupFault, writeFault)
    ensures db.visits ==
      if err == Done then old(db.visits)[scheduleId := VisitRepo.Ended(old(db.visits)[scheduleId], latitude, longitude, notes, now)]
      else old(db.visits)
  {
    var found := VisitRepo.GetByScheduleID(db, scheduleId, lookupFault);
    if found.Err? {
      return Err(Wrap("failed to get visit", found.msg));
    }
    if found.value.None? {
      return Err("visit not found for schedule " + IntToString(scheduleId));
    }
    var visit := found.value.value;
    if visit.startTime.None? {
      return Err("cannot end visit that hasn't been started");
    }
    var ended := VisitRepo.Ended(visit, latitude, longitude, notes, now);
    VisitRepo.UpdatedOwnRow(db.visits, scheduleId, ended);
    var updateErr := VisitRepo.Update(db, ended, writeFault);
    if updateErr.Err? {
      return Err(Wrap("failed to update visit", updateErr.msg));
    }
    OkIsDone(updateErr);
    err := Done;
  }

  /** An ended record is completed at the given place, keeps its start, and
      keeps its notes unless new ones are given. */
  lemma EndedRecord(v: Visit, latitude: real, longitude: real, notes: string, now: Instant)
    requires v.startTime.Some?
    ensures var w := VisitRepo.Ended(v, latitude, longitude, notes, now);
      && w.status == "completed" && w.endLatitude == Some(latitude) && w.endLongitude == Some(longitude)
      && w.endTime == Some(now) && w.startTime == v.startTime
      && w.startLatitude == v.startLatitude && w.startLongitude == v.startLongitude
      && w.id == v.id && w.scheduleId == v.scheduleId
      && (w.notes == if notes == "" then v.notes else notes)
  {
  }
}
