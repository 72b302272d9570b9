/** The clients repository (backend/internal/repositories/client_repository.go):
    the filtered listing query and its arguments, lookup by id, insert,
    update, the guarded delete and the search shortcut. Each SQL statement
    takes a fault: None is success, Some(e) the driver's error e. */
module ClientRepo {
  import opened Wrappers
  import opened Models
  import opened Text
  import opened Db
  import opened Placeholders

  /** The SELECT … FROM clients WHERE 1=1 head of the listing query, word by
      word (words joined by single spaces). */
  const SelectWords: seq<string> :=
    ["SELECT", "id,", "name,", "email,", "phone,", "address,", "city,", "state,", "zip_code,", "latitude,",
     "longitude,", "notes,", "is_active,", "created_at,", "updated_at", "FROM", "clients", "WHERE", "1=1"]

  const BaseQuery: string := Join(" ", SelectWords)

  const OrderBy: string := " ORDER BY name ASC"

  const ActiveClause := " AND is_active = "
  const CityClause := " AND LOWER(city) = LOWER("
  const StateClause := " AND LOWER(state) = LOWER("
  /** The three pieces of SQL around the search clause's placeholders. */
  const SearchName := " AND (LOWER(name) LIKE LOWER("
  const SearchEmail := ") OR LOWER(email) LIKE LOWER("
  const SearchPhone := ") OR phone LIKE "

  lemma BaseQueryClean()
    ensures '?' !in BaseQuery && BaseQuery != "" && !IsDigit(BaseQuery[0])
  {
    JoinAbsent(" ", SelectWords, '?');
    assert BaseQuery == "SELECT" + " " + Join(" ", SelectWords[1..]);
  }

  lemma TextsClean()
    ensures '?' !in OrderBy && !IsDigit(OrderBy[0])
    ensures '?' !in ActiveClause && !IsDigit(ActiveClause[0])
    ensures '?' !in CityClause && !IsDigit(CityClause[0])
    ensures '?' !in StateClause && !IsDigit(StateClause[0])
    ensures '?' !in ")" && !IsDigit(")"[0])
  {
  }

  lemma SearchTextsClean()
    ensures '?' !in SearchName && !IsDigit(SearchName[0])
    ensures '?' !in SearchEmail && !IsDigit(SearchEmail[0])
    ensures '?' !in SearchPhone && !IsDigit(SearchPhone[0])
  {
  }

  /** `fmt.Sprintf` of the search clause with placeholders k, k+1, k+2. */
  function SearchText(k: nat): string {
    SearchName + Marker(k) + SearchEmail + Marker(k + 1) + SearchPhone + Marker(k + 2) + ")"
  }

  /** The search condition as SQLite receives it: three placeholders. */
  function SearchSql(): string {
    Clause(SearchName, "") + Clause(SearchEmail, "") + Clause(SearchPhone, ")")
  }

  /** The LIKE pattern bound to each of the three search placeholders. */
  function SearchTerm(search: string): (r: string)
    ensures |r| == |search| + 2 && r[0] == '%' && r[|r| - 1] == '%' && r[1..|r| - 1] == search
  {
    "%" + search + "%"
  }

  /** The conditions on is_active, city and state. */
  function ColumnFilterSql(f: ClientFilter): string {
    When(f.isActive.Some?, Clause(ActiveClause, "")) + When(f.city.Some?, Clause(CityClause, ")")) +
    When(f.state.Some?, Clause(StateClause, ")"))
  }

  function ColumnFilterArgs(f: ClientFilter): seq<Arg> {
    OptArg(f.isActive.Some?, BoolArg(f.isActive.GetOr(false))) + OptArg(f.city.Some?, TextArg(f.city.GetOr(""))) +
    OptArg(f.state.Some?, TextArg(f.state.GetOr("")))
  }

  /** The WHERE conditions, in the fixed order is_active, city, state, search. */
  function FilterSql(filter: Option<ClientFilter>): string {
    if filter.None? then ""
    else
      ColumnFilterSql(filter.value) + When(filter.value.search.Some?, SearchSql())
  }

  function SearchArgs(search: Option<string>): seq<Arg> {
    if search.None? then []
    else
      var t := TextArg(SearchTerm(search.value));
      [t, t, t]
  }

  function FilterArgs(filter: Option<ClientFilter>): seq<Arg> {
    if filter.None? then []
    else
      ColumnFilterArgs(filter.value) + SearchArgs(filter.value.search)
  }

  function LimitOf(filter: Option<ClientFilter>): Option<int> {
    if filter.None? then None else filter.value.limit
  }

  function OffsetOf(filter: Option<ClientFilter>): Option<int> {
    if filter.None? then None else filter.value.offset
  }

  /** The SQL text the listing sends to SQLite, after the rewrite. */
  function ClientSql(filter: Option<ClientFilter>): string {
    BaseQuery + FilterSql(filter) + OrderBy + PagingSql(LimitOf(filter), OffsetOf(filter))
  }

  /** The arguments bound to the placeholders, in the order they appear. */
  function ClientArgs(filter: Option<ClientFilter>): seq<Arg> {
    FilterArgs(filter) + PagingArgs(LimitOf(filter), OffsetOf(filter))
  }

  /** The search clause, formatted with `argIndex`, `argIndex+1` and
      `argIndex+2` and its three copies of the pattern appended. */
  method AddSearch(present: bool, term: string, query: string, args: seq<Arg>, argIndex: nat, ghost ps: seq<Piece>)
    returns (query': string, args': seq<Arg>, argIndex': nat, ghost ps': seq<Piece>)
    requires argIndex == |args| + 1 && |args| <= 6 && WellFormed(ps, |args|) && query == Render(ps, 9) && Slots(ps) == |args|
    ensures argIndex' == |args'| + 1 && args' == args + (if present then SearchArgs(Some(term)) else [])
    ensures WellFormed(ps', |args'|) && query' == Render(ps', 9) && Slots(ps') == |args'|
    ensures Render(ps', 0) == Render(ps, 0) + When(present, SearchSql())
  {
    if !present {
      query', args', argIndex', ps' := query, args, argIndex, ps;
      AppendEmpty(Render(ps, 0));
      AppendEmpty(args);
      return;
    }
    SearchTextsClean();
    var n := argIndex - 1;
    query' := query + SearchText(argIndex);
    var t := TextArg(SearchTerm(term));
    args' := args + [t, t, t];
    argIndex' := argIndex + 3;
    Extend(ps, n, SearchName, "");
    ghost var p1 := ps + [Lit(SearchName), Slot(n + 1), Lit("")];
    Extend(p1, n + 1, SearchEmail, "");
    ghost var p2 := p1 + [Lit(SearchEmail), Slot(n + 2), Lit("")];
    Extend(p2, n + 2, SearchPhone, ")");
    ps' := p2 + [Lit(SearchPhone), Slot(n + 3), Lit(")")];
    Regroup(Render(ps, 9), SearchName, Marker(n + 1), SearchEmail, Marker(n + 2), SearchPhone, Marker(n + 3));
    Regroup3(Render(ps, 0), Clause(SearchName, ""), Clause(SearchEmail, ""), Clause(SearchPhone, ")"));
  }

  /** Regrouping of the formatted search clause. */
  lemma Regroup(r: string, a: string, x: string, b: string, y: string, c: string, z: string)
    ensures r + (a + x + "") + (b + y + "") + (c + z + ")") == r + (a + x + b + y + c + z + ")")
  {
    AppendEmpty(a + x);
    AppendEmpty(b + y);
    AppendAssoc(r, a + x, b + y);
    AppendAssoc(r, a + x + (b + y), c + z + ")");
    AppendAssoc(a + x, b, y);
    AppendAssoc(a + x + b + y, c + z, ")");
    AppendAssoc(a + x + b + y, c, z);
  }

  lemma Regroup3(r: string, a: string, b: string, c: string)
    ensures r + a + b + c == r + (a + b + c)
  {
    AppendAssoc(r, a, b);
    AppendAssoc(r, a + b, c);
  }

  /** The WHERE conditions of `GetAll`, appended in the order is_active,
      city, state, search. */
  method AddFilters(filter: Option<ClientFilter>, query: string, args: seq<Arg>, argIndex: nat, ghost ps: seq<Piece>)
    returns (query': string, args': seq<Arg>, argIndex': nat, ghost ps': seq<Piece>)
    requires argIndex == 1 && args == [] && WellFormed(ps, 0) && query == Render(ps, 9) && Slots(ps) == 0
    ensures argIndex' == |args'| + 1 && args' == FilterArgs(filter) && |args'| <= 6
    ensures WellFormed(ps', |args'|) && query' == Render(ps', 9) && Slots(ps') == |args'|
    ensures Render(ps', 0) == Render(ps, 0) + FilterSql(filter)
  {
    if filter.None? {
      query', args', argIndex', ps' := query, args, argIndex, ps;
      AppendEmpty(Render(ps, 0));
      return;
    }
    var f := filter.value;
    var q3, a3, i3, p3 := AddColumnFilters(f, query, args, argIndex, ps);
    query', args', argIndex', ps' := AddSearch(f.search.Some?, f.search.GetOr(""), q3, a3, i3, p3);
    AppendAssoc(Render(ps, 0), ColumnFilterSql(f), When(f.search.Some?, SearchSql()));
  }

  method AddColumnFilters(f: ClientFilter, query: string, args: seq<Arg>, argIndex: nat, ghost ps: seq<Piece>)
    returns (query': string, args': seq<Arg>, argIndex': nat, ghost ps': seq<Piece>)
    requires argIndex == 1 && args == [] && WellFormed(ps, 0) && query == Render(ps, 9) && Slots(ps) == 0
    ensures argIndex' == |args'| + 1 && args' == ColumnFilterArgs(f) && |args'| <= 3
    ensures WellFormed(ps', |args'|) && query' == Render(ps', 9) && Slots(ps') == |args'|
    ensures Render(ps', 0) == Render(ps, 0) + ColumnFilterSql(f)
  {
    TextsClean();
    var q1, a1, i1, p1 := AddOptional(f.isActive.Some?, query, args, argIndex, ActiveClause, "",
                                      BoolArg(f.isActive.GetOr(false)), ps);
    var q2, a2, i2, p2 := AddOptional(f.city.Some?, q1, a1, i1, CityClause, ")", TextArg(f.city.GetOr("")), p1);
    query', args', argIndex', ps' :=
      AddOptional(f.state.Some?, q2, a2, i2, StateClause, ")", TextArg(f.state.GetOr("")), p2);
    AppendEmpty(OptArg(f.isActive.Some?, BoolArg(f.isActive.GetOr(false))));
    AppendAssoc(Render(ps, 0), When(f.isActive.Some?, Clause(ActiveClause, "")),
      When(f.city.Some?, Clause(CityClause, ")")));
    AppendAssoc(Render(ps, 0), When(f.isActive.Some?, Clause(ActiveClause, "")) +
      When(f.city.Some?, Clause(CityClause, ")")), When(f.state.Some?, Clause(StateClause, ")")));
  }

  /** `GetAll`'s query builder and placeholder rewrite. */
  method BuildQuery(filter: Option<ClientFilter>) returns (query: string, args: seq<Arg>)
    ensures query == ClientSql(filter)
    ensures args == ClientArgs(filter)
    ensures CountChar(query, '?') == |args|
  {
    BaseQueryClean();
    TextsClean();
    query := BaseQuery;
    args := [];
    var argIndex := 1;
    ghost var ps := [Lit(BaseQuery)];
    RenderSingle(BaseQuery, 0);
    RenderSingle(BaseQuery, 9);
    WellFormedSingle(BaseQuery);
    assert Slots(ps) == 0;

    query, args, argIndex, ps := AddFilters(filter, query, args, argIndex, ps);
    ghost var r1 := Render(ps, 0);
    assert r1 == BaseQuery + FilterSql(filter);

    ExtendLit(ps, argIndex - 1, OrderBy);
    query := query + OrderBy;
    ps := ps + [Lit(OrderBy)];
    ghost var r2 := Render(ps, 0);
    assert r2 == r1 + OrderBy;

    query, args, argIndex, ps := AddPaging(LimitOf(filter), OffsetOf(filter), query, args, argIndex, ps);
    assert Render(ps, 0) == r2 + PagingSql(LimitOf(filter), OffsetOf(filter));
    assert args == ClientArgs(filter);

    var n := |args|;
    RenderAbove(ps, n, 9);
    query := RewritePlaceholders(query, n, ps);
    PlaceholderCount(ps, n);
  }

  /** The scan loop of `GetAll`: every row becomes a client, in order. */
  method ScanRows(rows: seq<ClientRow>) returns (clients: seq<Client>)
    ensures |clients| == |rows| && forall i | 0 <= i < |rows| :: clients[i] == ScanClient(rows[i])
  {
    clients := [];
    var i := 0;
    while i < |rows|
      invariant 0 <= i <= |rows| && |clients| == i
      invariant forall j | 0 <= j < i :: clients[j] == ScanClient(rows[j])
    {
      clients := clients + [ScanClient(rows[i])];
      i := i + 1;
    }
  }

  /** `GetAll`: builds the query and its arguments, runs it and scans the
      rows. Which rows SQLite returns is an input (`rows`), as is a failure of
      the query itself (`fault`). */
  method GetAll(filter: Option<ClientFilter>, fault: Option<string>, rows: seq<ClientRow>)
    returns (query: string, args: seq<Arg>, r: Result<seq<Client>>)
    ensures query == ClientSql(filter) && args == ClientArgs(filter) && CountChar(query, '?') == |args|
    ensures r.Err? <==> fault.Some?
    ensures fault.Some? ==> r == Err(Wrap("failed to query clients", fault.value))
    ensures r.Ok? ==> (|r.value| == |rows| && forall i | 0 <= i < |rows| :: r.value[i] == ScanClient(rows[i]))
  {
    query, args := BuildQuery(filter);
    if fault.Some? {
      r := Err(Wrap("failed to query clients", fault.value));
      return;
    }
    var clients := ScanRows(rows);
    r := Ok(clients);
  }

  /** The filter `Search` passes to `GetAll`. */
  function SearchFilter(q: string): ClientFilter {
    ClientFilter(None, None, None, Some(q), None, None)
  }

  /** `Search(q)`: `GetAll` with only the search term set. */
  method Search(q: string, fault: Option<string>, rows: seq<ClientRow>)
    returns (query: string, args: seq<Arg>, r: Result<seq<Client>>)
    ensures query == BaseQuery + SearchSql() + OrderBy
    ensures args == [TextArg(SearchTerm(q)), TextArg(SearchTerm(q)), TextArg(SearchTerm(q))]
    ensures r.Err? <==> fault.Some?
    ensures fault.Some? ==> r == Err(Wrap("failed to query clients", fault.value))
    ensures r.Ok? ==> (|r.value| == |rows| && forall i | 0 <= i < |rows| :: r.value[i] == ScanClient(rows[i]))
  {
    query, args, r := GetAll(Some(SearchFilter(q)), fault, rows);
    SearchQuery(q);
  }

  lemma SearchQuery(q: string)
    ensures ClientSql(Some(SearchFilter(q))) == BaseQuery + SearchSql() + OrderBy
    ensures ClientArgs(Some(SearchFilter(q))) == [TextArg(SearchTerm(q)), TextArg(SearchTerm(q)), TextArg(SearchTerm(q))]
  {
    var f := Some(SearchFilter(q));
    AppendEmpty(SearchSql());
    assert FilterSql(f) == SearchSql();
    AppendEmpty(BaseQuery + SearchSql() + OrderBy);
  }

  /** `GetByID`: no row is not an error. */
  function GetByID(db: Database, id: int, fault: Option<string>): (r: Result<Option<Client>>)
    reads db
    ensures r.Err? <==> fault.Some?
    ensures fault.Some? ==> r == Err(Wrap("failed to get client", fault.value))
    ensures r.Ok? ==> (r.value.None? <==> id !in db.clients)
    ensures r.Ok? && r.value.Some? ==> r.value.value == ScanClient(db.clients[id])
  {
    if fault.Some? then Err(Wrap("failed to get client", fault.value))
    else if id !in db.clients then Ok(None)
    else Ok(Some(ScanClient(db.clients[id])))
  }

  /** `Create`: inserts the client under the next AUTOINCREMENT id and
      returns that id (the caller's `client.ID`). */
  method Create(db: Database, c: Client, fault: Option<string>) returns (err: Outcome, id: int)
    modifies db`clients, db`nextClientId
    ensures fault.Some? ==> err == Err(Wrap("failed to create client", fault.value)) && unchanged(db)
    ensures fault.None? ==> (err == Done && id == old(db.nextClientId) &&
      db.clients == old(db.clients)[id := ClientRowOf(c.(id := id))] && db.nextClientId == id + 1)
    ensures old(db.Valid()) && fault.None? ==> id !in old(db.clients)
    ensures old(db.Valid()) ==> db.Valid()
  {
    id := 0;
    if fault.Some? {
      return Err(Wrap("failed to create client", fault.value)), id;
    }
    id := db.nextClientId;
    ghost var wasValid, before := db.Valid(), db.clients;
    assert wasValid ==> ClientOk(before, id, id);
    db.clients := db.clients[id := ClientRowOf(c.(id := id))];
    db.nextClientId := id + 1;
    if wasValid {
      forall k
        ensures ClientOk(db.clients, db.nextClientId, k)
      {
        assert ClientOk(before, id, k);
      }
      forall k
        ensures ScheduleOk(db.schedules, db.clients, k)
      {
        assert ScheduleOk(db.schedules, before, k);
      }
    }
    err := Done;
  }

  /** A created client reads back as given, under its new id. */
  lemma CreateReadsBack(db: Database, c: Client, id: int)
    requires id in db.clients && db.clients[id] == ClientRowOf(c.(id := id))
    ensures GetByID(db, id, None) == Ok(Some(c.(id := id)))
  {
    ScanClientRowOf(c.(id := id));
  }

  /** `Update`: overwrites every column of the client's row; an id with no
      row changes nothing and is not an error. */
  method Update(db: Database, c: Client, fault: Option<string>) returns (err: Outcome)
    modifies db`clients
    ensures fault.Some? ==> err == Err(Wrap("failed to update client", fault.value)) && unchanged(db)
    ensures fault.None? ==> err == Done
    ensures fault.None? && c.id in old(db.clients) ==> db.clients == old(db.clients)[c.id := ClientRowOf(c)]
    ensures fault.None? && c.id !in old(db.clients) ==> unchanged(db)
    ensures old(db.Valid()) ==> db.Valid()
  {
    if fault.Some? {
      return Err(Wrap("failed to update client", fault.value));
    }
    if c.id in db.clients {
      ghost var wasValid, before := db.Valid(), db.clients;
      db.clients := db.clients[c.id := ClientRowOf(c)];
      if wasValid {
        forall k
          ensures ClientOk(db.clients, db.nextClientId, k)
        {
          assert ClientOk(before, db.nextClientId, k);
        }
        forall k
          ensures ScheduleOk(db.schedules, db.clients, k)
        {
          assert ScheduleOk(db.schedules, before, k);
        }
      }
    }
    err := Done;
  }

  /** The message of a refused delete. */
  function HasSchedules(count: nat): string {
    "cannot delete client: client has " + NatToString(count) + " associated schedules"
  }

  /** `Delete`: counts the client's schedules first and refuses while there
      are any; `countFault` and `deleteFault` are the two statements'
      failures. */
  method Delete(db: Database, id: int, countFault: Option<string>, deleteFault: Option<string>) returns (err: Outcome)
    modifies db`clients
    ensures countFault.Some? ==> err == Err(Wrap("failed to check client schedules", countFault.value)) && unchanged(db)
    ensures countFault.None? && SchedulesOf(db.schedules, id) != {} ==>
      err == Err(HasSchedules(|SchedulesOf(db.schedules, id)|)) && unchanged(db)
    ensures countFault.None? && SchedulesOf(db.schedules, id) == {} && deleteFault.Some? ==>
      err == Err(Wrap("failed to delete client", deleteFault.value)) && unchanged(db)
    ensures err == Done <==> countFault.None? && SchedulesOf(db.schedules, id) == {} && deleteFault.None?
    ensures err == Done ==> db.clients == old(db.clients) - {id}
    ensures old(db.Valid()) ==> db.Valid()
  {
    if countFault.Some? {
      return Err(Wrap("failed to check client schedules", countFault.value));
    }
    var count := |SchedulesOf(db.schedules, id)|;
    if count > 0 {
      return Err(HasSchedules(count));
    }
    if deleteFault.Some? {
      return Err(Wrap("failed to delete client", deleteFault.value));
    }
    ghost var wasValid, before := db.Valid(), db.clients;
    db.clients := db.clients - {id};
    if wasValid {
      forall k
        ensures ClientOk(db.clients, db.nextClientId, k)
      {
        assert ClientOk(before, db.nextClientId, k);
      }
      forall k
        ensures ScheduleOk(db.schedules, db.clients, k)
      {
        assert ScheduleOk(db.schedules, before, k);
        assert k in db.schedules ==> k !in SchedulesOf(db.schedules, id);
      }
    }
    err := Done;
  }
}
