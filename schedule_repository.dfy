/** The schedules repository (backend/internal/repositories/schedule_repository.go):
    the filtered listing query and its arguments, the placeholder rewrite,
    the scan of joined schedule and client rows with NULL defaults, lookup
    by id, today's listing and the update of a schedule row. */
module ScheduleRepo {
  import opened Wrappers
  import opened Models
  import opened Text
  import opened Db
  import opened Placeholders

  /** The SELECT … FROM … WHERE 1=1 head of the listing query, word by word
      (its line breaks and indentation are not modelled: words are joined by
      single spaces). */
  const SelectWords: seq<string> :=
    ["SELECT", "s.id,", "s.client_id,", "s.service_name,", "s.caregiver_id,", "s.start_time,", "s.end_time,",
     "s.status,", "s.notes,", "s.created_at,", "s.updated_at,", "c.id,", "c.name,", "c.email,", "c.phone,",
     "c.address,", "c.city,", "c.state,", "c.zip_code,", "c.latitude,", "c.longitude,", "c.notes,",
     "c.is_active,", "c.created_at,", "c.updated_at", "FROM", "schedules", "s", "LEFT", "JOIN", "clients",
     "c", "ON", "s.client_id", "=", "c.id", "WHERE", "1=1"]

  const BaseQuery: string := Join(" ", SelectWords)

  const OrderBy: string := " ORDER BY s.start_time ASC"

  lemma BaseQueryClean()
    ensures '?' !in BaseQuery && BaseQuery != "" && !IsDigit(BaseQuery[0])
  {
    SelectColumnsClean();
    SelectJoinClean();
    JoinAbsent(" ", SelectWords, '?');
    assert BaseQuery == "SELECT" + " " + Join(" ", SelectWords[1..]);
  }

  lemma SelectColumnsClean()
    ensures forall i | 0 <= i < 20 :: '?' !in SelectWords[i]
  {
  }

  lemma SelectJoinClean()
    ensures forall i | 20 <= i < |SelectWords| :: '?' !in SelectWords[i]
  {
  }

  /** The WHERE conditions, in the fixed order caregiver, date, status. */
  function FilterSql(filter: Option<ScheduleFilter>): string {
    if filter.None? then ""
    else
      When(filter.value.caregiverId.Some?, Clause(CaregiverClause, "")) +
      When(filter.value.date.Some?, Clause(DateClause, ")")) +
      When(filter.value.status.Some?, Clause(StatusClause, ""))
  }

  function LimitOf(filter: Option<ScheduleFilter>): Option<int> {
    if filter.None? then None else filter.value.limit
  }

  function OffsetOf(filter: Option<ScheduleFilter>): Option<int> {
    if filter.None? then None else filter.value.offset
  }

  /** The SQL text the listing sends to SQLite, after the rewrite. */
  function ScheduleSql(filter: Option<ScheduleFilter>): string {
    BaseQuery + FilterSql(filter) + OrderBy + PagingSql(LimitOf(filter), OffsetOf(filter))
  }

  /** `time.Time.Format("2006-01-02")`. */
  function FormatDate(d: Date): string {
    PadStart(NatToString(d.year), 4, '0') + "-" + PadStart(NatToString(d.month), 2, '0') + "-" +
    PadStart(NatToString(d.day), 2, '0')
  }

  function FilterArgs(filter: Option<ScheduleFilter>): seq<Arg> {
    if filter.None? then []
    else
      var f := filter.value;
      OptArg(f.caregiverId.Some?, IntArg(f.caregiverId.GetOr(0))) +
      OptArg(f.date.Some?, TextArg(FormatDate(f.date.GetOr(Date(0, 0, 0))))) +
      OptArg(f.status.Some?, TextArg(f.status.GetOr("")))
  }

  /** The arguments bound to the placeholders, in the order they appear. */
  function ScheduleArgs(filter: Option<ScheduleFilter>): seq<Arg> {
    FilterArgs(filter) + PagingArgs(LimitOf(filter), OffsetOf(filter))
  }

  const CaregiverClause := " AND s.caregiver_id = "
  const DateClause := " AND DATE(s.start_time) = DATE("
  const StatusClause := " AND s.status = "

  lemma FilterTextsClean()
    ensures '?' !in CaregiverClause && !IsDigit(CaregiverClause[0])
    ensures '?' !in DateClause && !IsDigit(DateClause[0])
    ensures '?' !in StatusClause && !IsDigit(StatusClause[0])
    ensures '?' !in ")" && !IsDigit(")"[0])
    ensures '?' !in OrderBy && !IsDigit(OrderBy[0])
    ensures '?' !in " LIMIT " && !IsDigit(" LIMIT "[0])
    ensures '?' !in " OFFSET " && !IsDigit(" OFFSET "[0])
  {
  }

  /** The WHERE conditions of `GetAll`, appended in the order caregiver, date, status. */
  method AddFilters(filter: Option<ScheduleFilter>, query: string, args: seq<Arg>, argIndex: nat, ghost ps: seq<Piece>)
    returns (query': string, args': seq<Arg>, argIndex': nat, ghost ps': seq<Piece>)
    requires argIndex == |args| + 1 && |args| <= 3 && WellFormed(ps, |args|) && query == Render(ps, 9) && Slots(ps) == |args|
    ensures argIndex' == |args'| + 1 && args' == args + FilterArgs(filter) && |args'| <= |args| + 3
    ensures WellFormed(ps', |args'|) && query' == Render(ps', 9) && Slots(ps') == |args'|
    ensures Render(ps', 0) == Render(ps, 0) + FilterSql(filter)
  {
    if filter.None? {
      query', args', argIndex', ps' := query, args, argIndex, ps;
      AppendEmpty(Render(ps, 0));
      AppendEmpty(args);
      return;
    }
    var f := filter.value;
    FilterTextsClean();
    var q1, a1, i1, p1 := AddOptional(f.caregiverId.Some?, query, args, argIndex, CaregiverClause, "",
                                      IntArg(f.caregiverId.GetOr(0)), ps);
    var q2, a2, i2, p2 := AddOptional(f.date.Some?, q1, a1, i1, DateClause, ")",
                                      TextArg(FormatDate(f.date.GetOr(Date(0, 0, 0)))), p1);
    query', args', argIndex', ps' := AddOptional(f.status.Some?, q2, a2, i2, StatusClause, "",
                                                 TextArg(f.status.GetOr("")), p2);
    ghost var t1 := When(f.caregiverId.Some?, Clause(CaregiverClause, ""));
    ghost var t2 := When(f.date.Some?, Clause(DateClause, ")"));
    ghost var t3 := When(f.status.Some?, Clause(StatusClause, ""));
    AppendAssoc(Render(ps, 0), t1, t2);
    AppendAssoc(Render(ps, 0), t1 + t2, t3);
    ghost var b1 := OptArg(f.caregiverId.Some?, IntArg(f.caregiverId.GetOr(0)));
    ghost var b2 := OptArg(f.date.Some?, TextArg(FormatDate(f.date.GetOr(Date(0, 0, 0)))));
    ghost var b3 := OptArg(f.status.Some?, TextArg(f.status.GetOr("")));
    AppendAssoc(args, b1, b2);
    AppendAssoc(args, b1 + b2, b3);
  }

  /** `GetAll`'s query builder and placeholder rewrite. */
  method BuildQuery(filter: Option<ScheduleFilter>) returns (query: string, args: seq<Arg>)
    ensures query == ScheduleSql(filter)
    ensures args == ScheduleArgs(filter)
    ensures CountChar(query, '?') == |args|
  {
    BaseQueryClean();
    query := BaseQuery;
    args := [];
    var argIndex := 1;
    ghost var ps := [Lit(BaseQuery)];
    RenderSingle(BaseQuery, 0);
    RenderSingle(BaseQuery, 9);
    WellFormedSingle(BaseQuery);
    assert Slots(ps) == 0;

    query, args, argIndex, ps := AddFilters(filter, query, args, argIndex, ps);
    ghost var r1 := Render(ps, 0);
    assert r1 == BaseQuery + FilterSql(filter);
    AppendEmpty(FilterArgs(filter));
    assert args == FilterArgs(filter);

    FilterTextsClean();
    ExtendLit(ps, argIndex - 1, OrderBy);
    query := query + OrderBy;
    ps := ps + [Lit(OrderBy)];
    ghost var r2 := Render(ps, 0);
    assert r2 == r1 + OrderBy;

    query, args, argIndex, ps := AddPaging(LimitOf(filter), OffsetOf(filter), query, args, argIndex, ps);
    assert Render(ps, 0) == r2 + PagingSql(LimitOf(filter), OffsetOf(filter));
    assert args == ScheduleArgs(filter);

    var n := |args|;
    RenderAbove(ps, n, 9);
    query := RewritePlaceholders(query, n, ps);
    PlaceholderCount(ps, n);
  }

  /** A scanned schedule row with its LEFT JOINed client; the related visit
      and tasks are left empty for the service to attach. */
  function ScanSchedule(row: ScheduleRow, client: ClientRow): (s: Schedule)
    ensures s.client == Some(ScanClient(client)) && s.visit.None? && s.tasks == []
    ensures s.id == row.id && s.clientId == row.clientId && s.status == row.status
  {
    Schedule(row.id, row.clientId, row.serviceName, row.caregiverId, row.startTime, row.endTime, row.status,
             row.notes, Some(ScanClient(client)), None, [])
  }

  /** The columns `Update` writes. */
  function ScheduleRowOf(s: Schedule): ScheduleRow {
    ScheduleRow(s.id, s.clientId, s.serviceName, s.caregiverId, s.startTime, s.endTime, s.status, s.notes)
  }

  /** Writing back a schedule as it was read leaves its row unchanged. */
  lemma ScanThenWrite(row: ScheduleRow, client: ClientRow)
    ensures ScheduleRowOf(ScanSchedule(row, client)) == row
  {
  }

  /** Writing a schedule with only its status changed changes only the
      status column of its row. */
  lemma WriteStatus(s: Schedule, status: string)
    ensures ScheduleRowOf(s.(status := status)) == ScheduleRowOf(s).(status := status)
  {
  }

  /** What database/sql reports when the LEFT JOIN finds no client and the
      NULL client id is scanned into an int. */
  const NullClientId := "sql: Scan error on column index 10, name \"id\": converting NULL to int is unsupported"

  /** `GetByID`: no row is not an error. */
  function GetByID(db: Database, id: int, fault: Option<string>): (r: Result<Option<Schedule>>)
    reads db
    ensures fault.Some? ==> r == Err(Wrap("failed to get schedule", fault.value))
    ensures r == Ok(None) <==> fault.None? && id !in db.schedules
    ensures r.Ok? && r.value.Some? ==>
      id in db.schedules && db.schedules[id].clientId in db.clients &&
      r.value.value == ScanSchedule(db.schedules[id], db.clients[db.schedules[id].clientId])
    ensures fault.None? && db.Valid() ==> r.Ok?
  {
    if fault.Some? then Err(Wrap("failed to get schedule", fault.value))
    else if id !in db.schedules then Ok(None)
    else
      var row := db.schedules[id];
      assert db.Valid() ==> ScheduleOk(db.schedules, db.clients, id);
      if row.clientId !in db.clients then Err(Wrap("failed to get schedule", NullClientId))
      else Ok(Some(ScanSchedule(row, db.clients[row.clientId])))
  }

  /** What `Update` returns: the driver's error; else nothing happens for an
      id with no row; else the foreign key to clients must hold. */
  function UpdateResult(schedules: map<int, ScheduleRow>, clients: map<int, ClientRow>, s: Schedule,
                        fault: Option<string>): Outcome
  {
    if fault.Some? then Err(Wrap("failed to update schedule", fault.value))
    else if s.id !in schedules then Done
    else if s.clientId !in clients then Err(Wrap("failed to update schedule", ForeignKeyFailed))
    else Done
  }

  /** `Update`: overwrites the schedule's columns; an id with no row changes
      nothing and is not an error; a client id with no client breaks the
      foreign key. */
  method Update(db: Database, s: Schedule, fault: Option<string>) returns (err: Outcome)
    modifies db`schedules
    ensures err == UpdateResult(old(db.schedules), db.clients, s, fault)
    ensures db.schedules ==
      if err == Done && s.id in old(db.schedules) then old(db.schedules)[s.id := ScheduleRowOf(s)] else old(db.schedules)
    ensures old(db.Valid()) ==> db.Valid()
  {
    if fault.Some? {
      return Err(Wrap("failed to update schedule", fault.value));
    }
    if s.id !in db.schedules {
      return Done;
    }
    if s.clientId !in db.clients {
      return Err(Wrap("failed to update schedule", ForeignKeyFailed));
    }
    ghost var wasValid, before := db.Valid(), db.schedules;
    db.schedules := db.schedules[s.id := ScheduleRowOf(s)];
    if wasValid {
      forall k ensures ScheduleOk(db.schedules, db.clients, k) {
        assert ScheduleOk(before, db.clients, k);
      }
      forall k ensures VisitOk(db.visits, db.schedules, db.nextVisitId, k) {
        assert VisitOk(db.visits, before, db.nextVisitId, k);
      }
      forall k ensures TaskOk(db.tasks, db.schedules, k) {
        assert TaskOk(db.tasks, before, k);
      }
    }
    err := Done;
  }

  /** The scan loop of `GetAll`: every joined row becomes a schedule, in
      order; the first row whose client is missing (NULL) stops it. */
  method ScanRows(rows: seq<(ScheduleRow, Option<ClientRow>)>) returns (r: Result<seq<Schedule>>)
    ensures r.Ok? <==> forall i | 0 <= i < |rows| :: rows[i].1.Some?
    ensures r.Err? ==> r == Err(Wrap("failed to scan schedule", NullClientId))
    ensures r.Ok? ==> (|r.value| == |rows| &&
      forall i | 0 <= i < |rows| :: rows[i].1.Some? && r.value[i] == ScanSchedule(rows[i].0, rows[i].1.value))
  {
    var schedules: seq<Schedule> := [];
    var i := 0;
    while i < |rows|
      invariant 0 <= i <= |rows| && |schedules| == i
      invariant forall j | 0 <= j < i :: rows[j].1.Some? && schedules[j] == ScanSchedule(rows[j].0, rows[j].1.value)
    {
      if rows[i].1.None? {
        return Err(Wrap("failed to scan schedule", NullClientId));
      }
      schedules := schedules + [ScanSchedule(rows[i].0, rows[i].1.value)];
      i := i + 1;
    }
    r := Ok(schedules);
  }

  /** `GetAll`: builds the query and its arguments, runs it and scans the
      rows. Which rows SQLite returns is an input (`rows`), as is a failure of
      the query itself (`fault`). */
  method GetAll(filter: Option<ScheduleFilter>, fault: Option<string>, rows: seq<(ScheduleRow, Option<ClientRow>)>)
    returns (query: string, args: seq<Arg>, r: Result<seq<Schedule>>)
    ensures query == ScheduleSql(filter) && args == ScheduleArgs(filter) && CountChar(query, '?') == |args|
    ensures fault.Some? ==> r == Err(Wrap("failed to query schedules", fault.value))
    ensures fault.None? ==> (r.Ok? <==> forall i | 0 <= i < |rows| :: rows[i].1.Some?)
    ensures r.Ok? ==> (|r.value| == |rows| &&
      forall i | 0 <= i < |rows| :: rows[i].1.Some? && r.value[i] == ScanSchedule(rows[i].0, rows[i].1.value))
  {
    query, args := BuildQuery(filter);
    if fault.Some? {
      r := Err(Wrap("failed to query schedules", fault.value));
      return;
    }
    r := ScanRows(rows);
  }

  /** The filter `GetToday` passes to `GetAll`. */
  function TodayFilter(caregiverId: int, today: Date): ScheduleFilter {
    ScheduleFilter(Some(caregiverId), Some(today), None, None, None)
  }

  /** `GetToday`: `GetAll` with only the caregiver and today's date set; the
      clock reading is the `today` parameter. */
  method GetToday(caregiverId: int, today: Date, fault: Option<string>, rows: seq<(ScheduleRow, Option<ClientRow>)>)
    returns (query: string, args: seq<Arg>, r: Result<seq<Schedule>>)
    ensures query == BaseQuery + Clause(CaregiverClause, "") + Clause(DateClause, ")") + OrderBy
    ensures args == [IntArg(caregiverId), TextArg(FormatDate(today))]
    ensures fault.Some? ==> r == Err(Wrap("failed to query schedules", fault.value))
    ensures fault.None? ==> (r.Ok? <==> forall i | 0 <= i < |rows| :: rows[i].1.Some?)
    ensures r.Ok? ==> (|r.value| == |rows| &&
      forall i | 0 <= i < |rows| :: rows[i].1.Some? && r.value[i] == ScanSchedule(rows[i].0, rows[i].1.value))
  {
    query, args, r := GetAll(Some(TodayFilter(caregiverId, today)), fault, rows);
    TodayQuery(caregiverId, today);
  }

  lemma TodayQuery(caregiverId: int, today: Date)
    ensures ScheduleSql(Some(TodayFilter(caregiverId, today))) ==
      BaseQuery + Clause(CaregiverClause, "") + Clause(DateClause, ")") + OrderBy
    ensures ScheduleArgs(Some(TodayFilter(caregiverId, today))) == [IntArg(caregiverId), TextArg(FormatDate(today))]
  {
    TodaySql(caregiverId, today);
    TodayArgs(caregiverId, today);
  }

  lemma TodaySql(caregiverId: int, today: Date)
    ensures ScheduleSql(Some(TodayFilter(caregiverId, today))) ==
      BaseQuery + Clause(CaregiverClause, "") + Clause(DateClause, ")") + OrderBy
  {
    var f := Some(TodayFilter(caregiverId, today));
    var c1, c2 := Clause(CaregiverClause, ""), Clause(DateClause, ")");
    assert FilterSql(f) == c1 + c2 by {
      AppendEmpty(c1 + c2);
    }
    assert PagingSql(LimitOf(f), OffsetOf(f)) == "";
    AppendShape(BaseQuery, c1, c2, OrderBy);
  }

  lemma AppendShape<T>(a: seq<T>, b: seq<T>, c: seq<T>, d: seq<T>)
    ensures a + (b + c) + d + [] == a + b + c + d
  {
  }

  lemma TodayArgs(caregiverId: int, today: Date)
    ensures ScheduleArgs(Some(TodayFilter(caregiverId, today))) == [IntArg(caregiverId), TextArg(FormatDate(today))]
  {
  }

  /** With no filter the query is the base query in start-time order, with no
      arguments. */
  lemma NoFilterQuery()
    ensures ScheduleSql(None) == BaseQuery + OrderBy && ScheduleArgs(None) == []
  {
    AppendEmpty(BaseQuery);
    AppendEmpty(BaseQuery + OrderBy);
  }

  /** A date within four-digit years renders as YYYY-MM-DD. */
  lemma FormatDateShape(d: Date)
    requires 1 <= d.year < 10000 && 1 <= d.month <= 12 && 1 <= d.day <= 31
    ensures |FormatDate(d)| == 10 && FormatDate(d)[4] == '-' && FormatDate(d)[7] == '-'
  {
    assert Pow10(4) == 10000 && Pow10(2) == 100;
    PaddedWidth(d.year, 4);
    PaddedWidth(d.month, 2);
    PaddedWidth(d.day, 2);
    DashesAt(PadStart(NatToString(d.year), 4, '0'), PadStart(NatToString(d.month), 2, '0'),
      PadStart(NatToString(d.day), 2, '0'));
  }

  lemma DashesAt(y: string, m: string, dd: string)
    requires |y| == 4 && |m| == 2 && |dd| == 2
    ensures var s := y + "-" + m + "-" + dd; |s| == 10 && s[4] == '-' && s[7] == '-'
  {
  }

  lemma PaddedWidth(n: nat, k: nat)
    requires 1 <= k && n < Pow10(k)
    ensures |PadStart(NatToString(n), k, '0')| == k
  {
    NatToStringLength(n, k);
  }
}
