/** The visits repository (backend/internal/repositories/visit_repository.go):
    lookup by schedule, insert, update by id, and the start, end and cancel
    transitions of a visit record. Each SQL statement takes a fault: None is
    success, Some(e) the driver's error e. */
module VisitRepo {
  import opened Wrappers
  import opened Models
  import opened Text
  import opened Db

  /** The lookup by schedule id: a missing row is not an error. */
  function GetByScheduleID(db: Database, scheduleId: int, fault: Option<string>): (r: Result<Option<Visit>>)
    reads db
    ensures r.Err? <==> fault.Some?
    ensures fault.Some? ==> r == Err(Wrap("failed to get visit", fault.value))
    ensures r.Ok? ==> (r.value.None? <==> scheduleId !in db.visits)
    ensures r.Ok? && r.value.Some? ==> r.value.value == db.visits[scheduleId]
  {
    if fault.Some? then Err(Wrap("failed to get visit", fault.value))
    else if scheduleId in db.visits then Ok(Some(db.visits[scheduleId]))
    else Ok(None)
  }

  /** A fresh visit record for a visit that starts at `now` at the given place. */
  function NewStarted(scheduleId: int, latitude: real, longitude: real, now: Instant): Visit {
    Visit(0, scheduleId, Some(now), None, Some(latitude), Some(longitude), None, None, "in_progress", "")
  }

  /** An existing record after a start: start time, start place and status change. */
  function Started(v: Visit, latitude: real, longitude: real, now: Instant): Visit {
    v.(startTime := Some(now), startLatitude := Some(latitude), startLongitude := Some(longitude), status := "in_progress")
  }

  /** A started record after an end; non-empty notes replace the old ones. */
  function Ended(v: Visit, latitude: real, longitude: real, notes: string, now: Instant): Visit {
    v.(endTime := Some(now), endLatitude := Some(latitude), endLongitude := Some(longitude),
       status := "completed", notes := if notes != "" then notes else v.notes)
  }

  /** A cancelled record: every time and place cleared, back to not_started. */
  function Cancelled(v: Visit): Visit {
    v.(startTime := None, endTime := None, startLatitude := None, startLongitude := None,
       endLatitude := None, endLongitude := None, status := "not_started", notes := "")
  }

  /** Starting touches only the start fields and the status. */
  lemma StartedKeepsEndAndNotes(v: Visit, latitude: real, longitude: real, now: Instant)
    ensures var w := Started(v, latitude, longitude, now);
      w.id == v.id && w.scheduleId == v.scheduleId && w.endTime == v.endTime &&
      w.endLatitude == v.endLatitude && w.endLongitude == v.endLongitude && w.notes == v.notes &&
      w.startTime == Some(now) && w.startLatitude == Some(latitude) && w.startLongitude == Some(longitude) &&
      w.status == "in_progress"
  {
  }

  /** Cancelling forgets everything a start wrote: a started-then-cancelled
      record is the cancelled original, and cancelling twice is cancelling once. */
  lemma CancelUndoesStart(v: Visit, latitude: real, longitude: real, now: Instant)
    ensures Cancelled(Started(v, latitude, longitude, now)) == Cancelled(v)
    ensures Cancelled(Cancelled(v)) == Cancelled(v)
    ensures Cancelled(v).id == v.id && Cancelled(v).scheduleId == v.scheduleId
  {
  }

  /** The row of `visits` whose id is `id`, if any. */
  function RowWithId(visits: map<int, Visit>, id: int): (r: Option<int>)
    requires forall k, k' :: VisitIdsDistinct(visits, k, k')
    ensures r.Some? ==> r.value in visits && visits[r.value].id == id
    ensures r.None? ==> forall k | k in visits :: visits[k].id != id
  {
    if exists k :: k in visits && visits[k].id == id then
      assert forall j, j' | j in visits && j' in visits :: VisitIdsDistinct(visits, j, j');
      var k :| k in visits && visits[k].id == id; Some(k)
    else None
  }

  /** The columns the UPDATE statement sets, written into a stored row; the
      id and schedule_id of the row stay. */
  function Overwrite(row: Visit, v: Visit): Visit {
    v.(id := row.id, scheduleId := row.scheduleId)
  }

  /** The table after `UPDATE visits SET … WHERE id = ?`: the row whose id is
      v's, if any, takes v's columns. */
  function Updated(visits: map<int, Visit>, v: Visit): (r: map<int, Visit>)
    requires forall k, k' :: VisitIdsDistinct(visits, k, k')
    ensures r.Keys == visits.Keys
    ensures forall k | k in visits :: r[k] == if visits[k].id == v.id then Overwrite(visits[k], v) else visits[k]
  {
    match RowWithId(visits, v.id)
    case Some(k) =>
      assert forall j | j in visits :: VisitIdsDistinct(visits, j, k);
      visits[k := Overwrite(visits[k], v)]
    case None => visits
  }

  /** `UPDATE visits SET … WHERE id = ?`. */
  method Update(db: Database, v: Visit, fault: Option<string>) returns (err: Outcome)
    requires db.Valid()
    modifies db`visits
    ensures db.Valid()
    ensures fault.Some? ==> err == Err(Wrap("failed to update visit", fault.value)) && db.visits == old(db.visits)
    ensures fault.None? ==> err == Done && db.visits == Updated(old(db.visits), v)
  {
    if fault.Some? {
      return Err(Wrap("failed to update visit", fault.value));
    }
    ghost var before := db.visits;
    db.visits := Updated(db.visits, v);
    forall k
      ensures VisitOk(db.visits, db.schedules, db.nextVisitId, k)
    {
      assert VisitOk(before, db.schedules, db.nextVisitId, k);
    }
    forall k, k'
      ensures VisitIdsDistinct(db.visits, k, k')
    {
      assert VisitIdsDistinct(before, k, k');
    }
    return Done;
  }

  /** Updating a stored record with a changed copy of itself replaces exactly that row. */
  lemma UpdatedOwnRow(visits: map<int, Visit>, k: int, v: Visit)
    requires forall k, k' :: VisitIdsDistinct(visits, k, k')
    requires k in visits && v.id == visits[k].id && v.scheduleId == visits[k].scheduleId
    ensures Updated(visits, v) == visits[k := v]
  {
    assert Overwrite(visits[k], v) == v;
    assert forall j | j in visits :: VisitIdsDistinct(visits, j, k);
  }

  /** The columns named by the INSERT statement. */
  const InsertColumns: seq<string> :=
    ["schedule_id", "start_time", "end_time", "start_latitude", "start_longitude",
     "end_latitude", "end_longitude", "status", "notes"]

  /** The VALUES list of the INSERT statement as written: eight placeholders. */
  const InsertValuesAsWritten: seq<string> := ["?", "?", "?", "?", "?", "?", "?", "?"]

  /** The VALUES list with one placeholder per column. */
  const InsertValues: seq<string> := ["?", "?", "?", "?", "?", "?", "?", "?", "?"]

  /** `Create` as written: SQLite refuses to prepare an INSERT whose VALUES
      list is shorter than its column list, so no visit is ever inserted.
      `refusal` is the driver's error text for that refusal, whose exact
      wording the driver decides. */
  function CreateAsWritten(db: Database, v: Visit, fault: Option<string>, refusal: string): (r: Result<int>)
    reads db
  {
    var values := CountChar(Join(", ", InsertValuesAsWritten), '?');
    if values != |InsertColumns| then Err(Wrap("failed to create visit", refusal))
    else if fault.Some? then Err(Wrap("failed to create visit", fault.value))
    else Ok(db.nextVisitId)
  }

  lemma CreateAsWrittenAlwaysFails(db: Database, v: Visit, fault: Option<string>, refusal: string)
    ensures CreateAsWritten(db, v, fault, refusal) == Err(Wrap("failed to create visit", refusal))
  {
    CountPlaceholders(InsertValuesAsWritten);
  }

  lemma {:induction false} CountPlaceholders(values: seq<string>)
    requires forall i | 0 <= i < |values| :: values[i] == "?"
    ensures CountChar(Join(", ", values), '?') == |values|
  {
    if |values| > 1 {
      CountPlaceholders(values[1..]);
      CountCharAppend("?", ", " + Join(", ", values[1..]), '?');
      CountCharAppend(", ", Join(", ", values[1..]), '?');
      assert Join(", ", values) == "?" + (", " + Join(", ", values[1..]));
    }
  }

  /** The corrected INSERT has one placeholder per column. */
  lemma InsertArityMatches()
    ensures CountChar(Join(", ", InsertValues), '?') == |InsertColumns|
  {
    CountPlaceholders(InsertValues);
  }

  /** `Create` with the corrected INSERT: the new row gets the next id; the
      foreign key to schedules and the UNIQUE schedule_id are enforced. */
  method Create(db: Database, v: Visit, fault: Option<string>) returns (err: Outcome, id: int)
    requires db.Valid()
    modifies db`visits, db`nextVisitId
    ensures db.Valid()
    ensures err.Err? ==> db.visits == old(db.visits) && db.nextVisitId == old(db.nextVisitId)
    ensures fault.Some? ==> err == Err(Wrap("failed to create visit", fault.value))
    ensures fault.None? && v.scheduleId !in old(db.schedules) ==> err == Err(Wrap("failed to create visit", ForeignKeyFailed))
    ensures fault.None? && v.scheduleId in old(db.schedules) && v.scheduleId in old(db.visits) ==>
      err == Err(Wrap("failed to create visit", "UNIQUE constraint failed: visits.schedule_id"))
    ensures fault.None? && v.scheduleId in old(db.schedules) && v.scheduleId !in old(db.visits) ==>
      err == Done && id == old(db.nextVisitId) && db.nextVisitId == id + 1 &&
      db.visits == old(db.visits)[v.scheduleId := v.(id := id)]
  {
    id := 0;
    if fault.Some? {
      return Err(Wrap("failed to create visit", fault.value)), id;
    }
    if v.scheduleId !in db.schedules {
      return Err(Wrap("failed to create visit", ForeignKeyFailed)), id;
    }
    if v.scheduleId in db.visits {
      return Err(Wrap("failed to create visit", "UNIQUE constraint failed: visits.schedule_id")), id;
    }
    ghost var before := db.visits;
    id := db.nextVisitId;
    db.visits := db.visits[v.scheduleId := v.(id := id)];
    db.nextVisitId := id + 1;
    forall k
      ensures VisitOk(db.visits, db.schedules, db.nextVisitId, k)
    {
      assert VisitOk(before, db.schedules, id, k);
    }
    forall k, k'
      ensures VisitIdsDistinct(db.visits, k, k')
    {
      assert VisitOk(before, db.schedules, id, k) && VisitOk(before, db.schedules, id, k');
      assert VisitIdsDistinct(before, k, k');
    }
    err := Done;
  }

  /** What starting a visit returns, from the tables before it: the lookup
      error; else the update's error when the schedule already has a record;
      else the insert's error, or the foreign key to schedules failing. */
  function StartResult(schedules: map<int, ScheduleRow>, visits: map<int, Visit>, scheduleId: int,
                       lookupFault: Option<string>, writeFault: Option<string>): Outcome
  {
    if lookupFault.Some? then Err(Wrap("failed to check existing visit", Wrap("failed to get visit", lookupFault.value)))
    else if scheduleId in visits then
      if writeFault.Some? then Err(Wrap("failed to update visit", writeFault.value)) else Done
    else if writeFault.Some? then Err(Wrap("failed to create visit", writeFault.value))
    else if scheduleId !in schedules then Err(Wrap("failed to create visit", ForeignKeyFailed))
    else Done
  }

  /** The visits table after a successful start: the schedule's record is
      started, or a fresh started record is inserted with the next id. */
  function StartedVisits(visits: map<int, Visit>, nextVisitId: int, scheduleId: int,
                         latitude: real, longitude: real, now: Instant): map<int, Visit>
  {
    if scheduleId in visits then visits[scheduleId := Started(visits[scheduleId], latitude, longitude, now)]
    else visits[scheduleId := NewStarted(scheduleId, latitude, longitude, now).(id := nextVisitId)]
  }

  /** When every visit belongs to a schedule, a start succeeds exactly when
      neither statement fails and the schedule exists. */
  lemma StartResultDone(schedules: map<int, ScheduleRow>, visits: map<int, Visit>, scheduleId: int,
                        lookupFault: Option<string>, writeFault: Option<string>)
    requires visits.Keys <= schedules.Keys
    ensures StartResult(schedules, visits, scheduleId, lookupFault, writeFault) == Done <==>
      lookupFault.None? && writeFault.None? && scheduleId in schedules
  {
  }

  /** The insert's outcome with the INSERT as written, from the tables
      before it: the statement is refused before any constraint is looked
      at, because it names more columns than it has placeholders. */
  function CreateOutcomeAsWritten(schedules: map<int, ScheduleRow>, visits: map<int, Visit>, scheduleId: int,
                                  fault: Option<string>, refusal: string): Outcome
  {
    var values := CountChar(Join(", ", InsertValuesAsWritten), '?');
    if values != |InsertColumns| then Err(Wrap("failed to create visit", refusal))
    else if fault.Some? then Err(Wrap("failed to create visit", fault.value))
    else if scheduleId !in schedules then Err(Wrap("failed to create visit", ForeignKeyFailed))
    else if scheduleId in visits then Err(Wrap("failed to create visit", "UNIQUE constraint failed: visits.schedule_id"))
    else Done
  }

  /** As written, the insert fails with the arity error whatever the
      tables hold. */
  lemma CreateOutcomeAsWrittenFails(schedules: map<int, ScheduleRow>, visits: map<int, Visit>, scheduleId: int,
                                    fault: Option<string>, refusal: string)
    ensures CreateOutcomeAsWritten(schedules, visits, scheduleId, fault, refusal) ==
      Err(Wrap("failed to create visit", refusal))
  {
    CountPlaceholders(InsertValuesAsWritten);
  }

  /** What starting a visit returns with the INSERT as written: the same as
      `StartResult` except that a schedule without a record goes through the
      refused insert. */
  function StartResultAsWritten(schedules: map<int, ScheduleRow>, visits: map<int, Visit>, scheduleId: int,
                                lookupFault: Option<string>, writeFault: Option<string>, refusal: string): Outcome
  {
    if lookupFault.Some? then Err(Wrap("failed to check existing visit", Wrap("failed to get visit", lookupFault.value)))
    else if scheduleId in visits then
      if writeFault.Some? then Err(Wrap("failed to update visit", writeFault.value)) else Done
    else CreateOutcomeAsWritten(schedules, visits, scheduleId, writeFault, refusal)
  }

  /** As written, a start succeeds only for a schedule that already has a
      record; for any other schedule it reports the arity error, whatever
      the tables hold. Where a record exists it agrees with `StartResult`. */
  lemma StartAsWrittenNeedsVisit(schedules: map<int, ScheduleRow>, visits: map<int, Visit>, scheduleId: int,
                                 lookupFault: Option<string>, writeFault: Option<string>, refusal: string)
    ensures StartResultAsWritten(schedules, visits, scheduleId, lookupFault, writeFault, refusal) == Done <==>
      lookupFault.None? && writeFault.None? && scheduleId in visits
    ensures lookupFault.None? && scheduleId !in visits ==>
      StartResultAsWritten(schedules, visits, scheduleId, lookupFault, writeFault, refusal) ==
        Err(Wrap("failed to create visit", refusal))
    ensures lookupFault.Some? || scheduleId in visits ==>
      StartResultAsWritten(schedules, visits, scheduleId, lookupFault, writeFault, refusal) ==
        StartResult(schedules, visits, scheduleId, lookupFault, writeFault)
  {
    CreateOutcomeAsWrittenFails(schedules, visits, scheduleId, writeFault, refusal);
  }

  /** After a successful start the schedule's record is in progress, started
      now at the given place, and no other record changed. */
  lemma StartedVisitsShape(visits: map<int, Visit>, nextVisitId: int, scheduleId: int,
                           latitude: real, longitude: real, now: Instant)
    requires forall k | k in visits :: visits[k].scheduleId == k
    ensures var r := StartedVisits(visits, nextVisitId, scheduleId, latitude, longitude, now);
      r.Keys == visits.Keys + {scheduleId} &&
      r[scheduleId].status == "in_progress" && r[scheduleId].startTime == Some(now) &&
      r[scheduleId].startLatitude == Some(latitude) && r[scheduleId].startLongitude == Some(longitude) &&
      r[scheduleId].scheduleId == scheduleId &&
      (forall k | k in visits && k != scheduleId :: r[k] == visits[k])
  {
  }

  /** Starting a visit: create the record if the schedule has none, else
      overwrite its start fields. */
  method StartVisit(db: Database, scheduleId: int, latitude: real, longitude: real, now: Instant,
                    lookupFault: Option<string>, writeFault: Option<string>) returns (err: Outcome)
    requires db.Valid()
    modifies db`visits, db`nextVisitId
    ensures db.Valid()
    ensures err == StartResult(old(db.schedules), old(db.visits), scheduleId, lookupFault, writeFault)
    ensures db.visits ==
      if err == Done then StartedVisits(old(db.visits), old(db.nextVisitId), scheduleId, latitude, longitude, now)
      else old(db.visits)
    ensures db.nextVisitId == if err == Done && scheduleId !in old(db.visits) then old(db.nextVisitId) + 1 else old(db.nextVisitId)
  {
    var found := GetByScheduleID(db, scheduleId, lookupFault);
    if found.Err? {
      return Err(Wrap("failed to check existing visit", found.msg));
    }
    if found.value.None? {
      var id;
      err, id := Create(db, NewStarted(scheduleId, latitude, longitude, now), writeFault);
    } else {
      UpdatedOwnRow(db.visits, scheduleId, Started(found.value.value, latitude, longitude, now));
      err := Update(db, Started(found.value.value, latitude, longitude, now), writeFault);
    }
  }

  /** What ending a visit returns: the lookup error, a missing record, a
      record never started, or the update's error. */
  function EndResult(visits: map<int, Visit>, scheduleId: int, lookupFault: Option<string>, writeFault: Option<string>): Outcome {
    if lookupFault.Some? then Err(Wrap("failed to get visit", Wrap("failed to get visit", lookupFault.value)))
    else if scheduleId !in visits then Err("visit not found for schedule " + IntToString(scheduleId))
    else if visits[scheduleId].startTime.None? then Err("cannot end visit that hasn't been started")
    else if writeFault.Some? then Err(Wrap("failed to update visit", writeFault.value))
    else Done
  }

  /** Only a started record can end. */
  lemma EndResultDone(visits: map<int, Visit>, scheduleId: int, lookupFault: Option<string>, writeFault: Option<string>)
    ensures EndResult(visits, scheduleId, lookupFault, writeFault) == Done <==>
      lookupFault.None? && writeFault.None? && scheduleId in visits && visits[scheduleId].startTime.Some?
  {
  }

  /** Ending a visit: only a started visit can end. */
  method EndVisit(db: Database, scheduleId: int, latitude: real, longitude: real, notes: string, now: Instant,
                  lookupFault: Option<string>, writeFault: Option<string>) returns (err: Outcome)
    requires db.Valid()
    modifies db`visits
    ensures db.Valid()
    ensures err == EndResult(old(db.visits), scheduleId, lookupFault, writeFault)
    ensures db.visits ==
      if err == Done then old(db.visits)[scheduleId := Ended(old(db.visits)[scheduleId], latitude, longitude, notes, now)]
      else old(db.visits)
  {
    var found := GetByScheduleID(db, scheduleId, lookupFault);
    if found.Err? {
      return Err(Wrap("failed to get visit", found.msg));
    }
    if found.value.None? {
      return Err("visit not found for schedule " + IntToString(scheduleId));
    }
    var visit := found.value.value;
    if visit.startTime.None? {
      return Err("cannot end visit that hasn't been started");
    }
    UpdatedOwnRow(db.visits, scheduleId, Ended(visit, latitude, longitude, notes, now));
    err := Update(db, Ended(visit, latitude, longitude, notes, now), writeFault);
  }

  /** What cancelling a visit returns: the lookup error, a missing record, a
      record not in progress, or the update's error. */
  function CancelResult(visits: map<int, Visit>, scheduleId: int, lookupFault: Option<string>, writeFault: Option<string>): Outcome {
    if lookupFault.Some? then Err(Wrap("failed to get visit", Wrap("failed to get visit", lookupFault.value)))
    else if scheduleId !in visits then Err("visit not found for schedule " + IntToString(scheduleId))
    else if visits[scheduleId].status != "in_progress" then Err("visit is not in progress")
    else if writeFault.Some? then Err(Wrap("failed to update visit", writeFault.value))
    else Done
  }

  /** Only an in-progress record can be cancelled. */
  lemma CancelResultDone(visits: map<int, Visit>, scheduleId: int, lookupFault: Option<string>, writeFault: Option<string>)
    ensures CancelResult(visits, scheduleId, lookupFault, writeFault) == Done <==>
      lookupFault.None? && writeFault.None? && scheduleId in visits && visits[scheduleId].status == "in_progress"
  {
  }

  /** Cancelling a visit: only an in-progress visit can be reset. */
  method CancelVisit(db: Database, scheduleId: int, lookupFault: Option<string>, writeFault: Option<string>)
    returns (err: Outcome)
    requires db.Valid()
    modifies db`visits
    ensures db.Valid()
    ensures err == CancelResult(old(db.visits), scheduleId, lookupFault, writeFault)
    ensures db.visits ==
      if err == Done then old(db.visits)[scheduleId := Cancelled(old(db.visits)[scheduleId])] else old(db.visits)
  {
    var found := GetByScheduleID(db, scheduleId, lookupFault);
    if found.Err? {
      return Err(Wrap("failed to get visit", found.msg));
    }
    if found.value.None? {
      return Err("visit not found for schedule " + IntToString(scheduleId));
    }
    var visit := found.value.value;
    if visit.status != "in_progress" {
      return Err("visit is not in progress");
    }
    UpdatedOwnRow(db.visits, scheduleId, Cancelled(visit));
    err := Update(db, Cancelled(visit), writeFault);
  }
}
