/** The client service (backend/internal/services/client_service.go): the
    required-field validation, lookup, create, the partial update that
    overwrites only the supplied fields, delete and search. */
module ClientService {
  import opened Wrappers
  import opened Models
  import opened Text
  import opened Db
  import ClientRepo

  /** The five required fields, each non-blank after trimming, checked in the
      order name, address, city, state, zip code. Both `validateClient` and
      `validateClientCreateRequest` are this check on their own fields. */
  function RequiredFieldsCheck(name: string, address: string, city: string, state: string, zipCode: string): Outcome {
    if IsBlank(name) then Err("client name is required")
    else if IsBlank(address) then Err("address is required")
    else if IsBlank(city) then Err("city is required")
    else if IsBlank(state) then Err("state is required")
    else if IsBlank(zipCode) then Err("zip code is required")
    else Done
  }

  /** The fields pass exactly when none is made of white space only; the
      first blank one in source order names the error. */
  lemma RequiredFieldsCheckAccepts(name: string, address: string, city: string, state: string, zipCode: string)
    ensures RequiredFieldsCheck(name, address, city, state, zipCode) == Done <==>
      !AllSpace(name) && !AllSpace(address) && !AllSpace(city) && !AllSpace(state) && !AllSpace(zipCode)
    ensures AllSpace(name) ==> RequiredFieldsCheck(name, address, city, state, zipCode) == Err("client name is required")
    ensures !AllSpace(name) && AllSpace(address) ==>
      RequiredFieldsCheck(name, address, city, state, zipCode) == Err("address is required")
    ensures !AllSpace(name) && !AllSpace(address) && AllSpace(city) ==>
      RequiredFieldsCheck(name, address, city, state, zipCode) == Err("city is required")
    ensures !AllSpace(name) && !AllSpace(address) && !AllSpace(city) && AllSpace(state) ==>
      RequiredFieldsCheck(name, address, city, state, zipCode) == Err("state is required")
  {
    BlankIffAllSpace(name);
    BlankIffAllSpace(address);
    BlankIffAllSpace(city);
    BlankIffAllSpace(state);
    BlankIffAllSpace(zipCode);
  }

  function ValidateCreateRequest(req: ClientCreateRequest): Outcome {
    RequiredFieldsCheck(req.name, req.address, req.city, req.state, req.zipCode)
  }

  function ValidateClient(c: Client): Outcome {
    RequiredFieldsCheck(c.name, c.address, c.city, c.state, c.zipCode)
  }

  /** `GetAllClients`: the repository's filtered listing, its error wrapped
      once more. */
  method GetAllClients(filter: Option<ClientFilter>, fault: Option<string>, rows: seq<ClientRow>)
    returns (r: Result<seq<Client>>)
    ensures fault.Some? ==> r == Err(Wrap("failed to get clients", Wrap("failed to query clients", fault.value)))
    ensures fault.None? ==>
      r.Ok? && |r.value| == |rows| && forall i | 0 <= i < |rows| :: r.value[i] == ScanClient(rows[i])
  {
    var query, args, found := ClientRepo.GetAll(filter, fault, rows);
    if found.Err? {
      return Err(Wrap("failed to get clients", found.msg));
    }
    r := found;
  }

  /** The message for an id that is not positive. */
  function InvalidId(id: int): string {
    "invalid client ID: " + IntToString(id)
  }

  /** `GetClientByID`: a non-positive id is refused before the repository is
      asked; a missing client is (nil, nil). */
  function GetClientByID(db: Database, id: int, fault: Option<string>): (r: Result<Option<Client>>)
    reads db
    ensures id <= 0 ==> r == Err(InvalidId(id))
    ensures id > 0 && fault.Some? ==> r == Err(Wrap("failed to get client", Wrap("failed to get client", fault.value)))
    ensures id > 0 && fault.None? ==>
      r == Ok(if id in db.clients then Some(ScanClient(db.clients[id])) else None)
  {
    if id <= 0 then Err(InvalidId(id))
    else
      var found := ClientRepo.GetByID(db, id, fault);
      if found.Err? then Err(Wrap("failed to get client", found.msg)) else found
  }

  /** The record `CreateClient` builds: every request field copied, active. */
  function NewClient(req: ClientCreateRequest): Client {
    Client(0, req.name, req.email, req.phone, req.address, req.city, req.state, req.zipCode,
           req.latitude, req.longitude, req.notes, true)
  }

  /** A new client carries the request's fields and is active; it passes the
      client validation exactly when the request passed. */
  lemma NewClientFields(req: ClientCreateRequest)
    ensures var c := NewClient(req);
      && c.name == req.name && c.email == req.email && c.phone == req.phone && c.address == req.address
      && c.city == req.city && c.state == req.state && c.zipCode == req.zipCode
      && c.latitude == req.latitude && c.longitude == req.longitude && c.notes == req.notes && c.isActive
    ensures ValidateClient(NewClient(req)) == ValidateCreateRequest(req)
  {
  }

  /** `CreateClient`: validation first; a valid request is inserted as an
      active client under the next id. */
  method CreateClient(db: Database, req: ClientCreateRequest, fault: Option<string>) returns (r: Result<Client>)
    requires db.Valid()
    modifies db`clients, db`nextClientId
    ensures db.Valid()
    ensures ValidateCreateRequest(req).Err? ==>
      r == Err(Wrap("client validation failed", ValidateCreateRequest(req).msg))
    ensures ValidateCreateRequest(req) == Done && fault.Some? ==>
      r == Err(Wrap("failed to create client", Wrap("failed to create client", fault.value)))
    ensures r.Ok? <==> ValidateCreateRequest(req) == Done && fault.None?
    ensures r.Ok? ==> r.value == NewClient(req).(id := old(db.nextClientId)) && r.value.id !in old(db.clients)
    ensures db.clients == if r.Ok? then old(db.clients)[r.value.id := ClientRowOf(r.value)] else old(db.clients)
    ensures db.nextClientId == if r.Ok? then old(db.nextClientId) + 1 else old(db.nextClientId)
  {
    var valid := ValidateCreateRequest(req);
    if valid.Err? {
      return Err(Wrap("client validation failed", valid.msg));
    }
    var client := NewClient(req);
    var createErr, id := ClientRepo.Create(db, client, fault);
    if createErr.Err? {
      return Err(Wrap("failed to create client", createErr.msg));
    }
    r := Ok(client.(id := id));
  }

  /** The partial update: each supplied field replaces the stored one. */
  function Merge(c: Client, req: ClientUpdateRequest): Client {
    c.(name := req.name.GetOr(c.name), email := req.email.GetOr(c.email), phone := req.phone.GetOr(c.phone),
       address := req.address.GetOr(c.address), city := req.city.GetOr(c.city), state := req.state.GetOr(c.state),
       zipCode := req.zipCode.GetOr(c.zipCode), latitude := req.latitude.GetOr(c.latitude),
       longitude := req.longitude.GetOr(c.longitude), notes := req.notes.GetOr(c.notes),
       isActive := req.isActive.GetOr(c.isActive))
  }

  /** The merge overwrites exactly the supplied fields: an empty request
      changes nothing, the id is kept, and merging twice is merging once. */
  lemma MergeOverwritesSupplied(c: Client, req: ClientUpdateRequest)
    ensures var m := Merge(c, req);
      && m.id == c.id
      && (m.name == if req.name.Some? then req.name.value else c.name)
      && (m.email == if req.email.Some? then req.email.value else c.email)
      && (m.phone == if req.phone.Some? then req.phone.value else c.phone)
      && (m.address == if req.address.Some? then req.address.value else c.address)
      && (m.city == if req.city.Some? then req.city.value else c.city)
      && (m.state == if req.state.Some? then req.state.value else c.state)
      && (m.zipCode == if req.zipCode.Some? then req.zipCode.value else c.zipCode)
      && (m.latitude == if req.latitude.Some? then req.latitude.value else c.latitude)
      && (m.longitude == if req.longitude.Some? then req.longitude.value else c.longitude)
      && (m.notes == if req.notes.Some? then req.notes.value else c.notes)
      && (m.isActive == if req.isActive.Some? then req.isActive.value else c.isActive)
    ensures Merge(c, EmptyClientUpdate) == c
    ensures Merge(Merge(c, req), req) == Merge(c, req)
  {
  }

  /** What `UpdateClient` returns, from the table before it. */
  function UpdateResult(clients: map<int, ClientRow>, id: int, req: ClientUpdateRequest,
                        lookupFault: Option<string>, writeFault: Option<string>): Result<Option<Client>>
  {
    if id <= 0 then Err(InvalidId(id))
    else if lookupFault.Some? then Err(Wrap("failed to get client", Wrap("failed to get client", lookupFault.value)))
    else if id !in clients then Ok(None)
    else
      var merged := Merge(ScanClient(clients[id]), req);
      if ValidateClient(merged).Err? then Err(Wrap("client validation failed", ValidateClient(merged).msg))
      else if writeFault.Some? then Err(Wrap("failed to update client", Wrap("failed to update client", writeFault.value)))
      else Ok(Some(merged))
  }

  /** The update writes only a valid merge of an existing client; a missing
      client is no error, and the written client validates. */
  lemma UpdateResultCases(clients: map<int, ClientRow>, id: int, req: ClientUpdateRequest,
                          lookupFault: Option<string>, writeFault: Option<string>)
    ensures var r := UpdateResult(clients, id, req, lookupFault, writeFault);
      && (r == Ok(None) <==> id > 0 && lookupFault.None? && id !in clients)
      && (r.Ok? && r.value.Some? <==>
            id > 0 && lookupFault.None? && writeFault.None? && id in clients &&
            ValidateClient(Merge(ScanClient(clients[id]), req)) == Done)
      && (r.Ok? && r.value.Some? ==>
            r.value.value == Merge(ScanClient(clients[id]), req) && ValidateClient(r.value.value) == Done)
  {
  }

  /** `UpdateClient`: reject a bad id, fetch, merge the supplied fields,
      validate the merge, then write it. */
  method UpdateClient(db: Database, id: int, req: ClientUpdateRequest, lookupFault: Option<string>,
                      writeFault: Option<string>) returns (r: Result<Option<Client>>)
    requires db.Valid()
    modifies db`clients
    ensures db.Valid()
    ensures r == UpdateResult(old(db.clients), id, req, lookupFault, writeFault)
    ensures db.clients ==
      if r.Ok? && r.value.Some? then old(db.clients)[id := ClientRowOf(r.value.value)] else old(db.clients)
  {
    if id <= 0 {
      return Err(InvalidId(id));
    }
    var found := ClientRepo.GetByID(db, id, lookupFault);
    if found.Err? {
      return Err(Wrap("failed to get client", found.msg));
    }
    if found.value.None? {
      return Ok(None);
    }
    assert ClientOk(db.clients, db.nextClientId, id);
    var client := Merge(found.value.value, req);
    var valid := ValidateClient(client);
    if valid.Err? {
      return Err(Wrap("client validation failed", valid.msg));
    }
    var updateErr := ClientRepo.Update(db, client, writeFault);
    if updateErr.Err? {
      return Err(Wrap("failed to update client", updateErr.msg));
    }
    r := Ok(Some(client));
  }

  /** What `DeleteClient` returns, from the tables before it. */
  function DeleteResult(clients: map<int, ClientRow>, schedules: map<int, ScheduleRow>, id: int,
                        lookupFault: Option<string>, countFault: Option<string>, deleteFault: Option<string>): Outcome
  {
    if id <= 0 then Err(InvalidId(id))
    else if lookupFault.Some? then Err(Wrap("failed to get client", Wrap("failed to get client", lookupFault.value)))
    else if id !in clients then Err("client not found")
    else if countFault.Some? then
      Err(Wrap("failed to delete client", Wrap("failed to check client schedules", countFault.value)))
    else if SchedulesOf(schedules, id) != {} then
      Err(Wrap("failed to delete client", ClientRepo.HasSchedules(|SchedulesOf(schedules, id)|)))
    else if deleteFault.Some? then Err(Wrap("failed to delete client", Wrap("failed to delete client", deleteFault.value)))
    else Done
  }

  /** A client is deleted exactly when it exists and no schedule refers to it. */
  lemma DeleteResultDone(clients: map<int, ClientRow>, schedules: map<int, ScheduleRow>, id: int,
                         lookupFault: Option<string>, countFault: Option<string>, deleteFault: Option<string>)
    ensures DeleteResult(clients, schedules, id, lookupFault, countFault, deleteFault) == Done <==>
      id > 0 && lookupFault.None? && countFault.None? && deleteFault.None? && id in clients &&
      forall k | k in schedules :: schedules[k].clientId != id
    ensures id > 0 && lookupFault.None? && id !in clients ==>
      DeleteResult(clients, schedules, id, lookupFault, countFault, deleteFault) == Err("client not found")
  {
    if forall k | k in schedules :: schedules[k].clientId != id {
      assert SchedulesOf(schedules, id) == {};
    }
  }

  /** `DeleteClient`: reject a bad id, refuse a missing client, then let the
      repository refuse a client that still has schedules. */
  method DeleteClient(db: Database, id: int, lookupFault: Option<string>, countFault: Option<string>,
                      deleteFault: Option<string>) returns (err: Outcome)
    requires db.Valid()
    modifies db`clients
    ensures db.Valid()
    ensures err == DeleteResult(old(db.clients), old(db.schedules), id, lookupFault, countFault, deleteFault)
    ensures db.clients == if err == Done then old(db.clients) - {id} else old(db.clients)
  {
    if id <= 0 {
      return Err(InvalidId(id));
    }
    var found := ClientRepo.GetByID(db, id, lookupFault);
    if found.Err? {
      return Err(Wrap("failed to get client", found.msg));
    }
    if found.value.None? {
      return Err("client not found");
    }
    var deleteErr := ClientRepo.Delete(db, id, countFault, deleteFault);
    if deleteErr.Err? {
      return Err(Wrap("failed to delete client", deleteErr.msg));
    }
    OkIsDone(deleteErr);
    err := Done;
  }

  /** `SearchClients`: a blank query answers an empty list without asking
      the repository; otherwise the repository's search, scanned row by row. */
  method SearchClients(q: string, fault: Option<string>, rows: seq<ClientRow>) returns (r: Result<seq<Client>>)
    ensures IsBlank(q) ==> r == Ok([])
    ensures !IsBlank(q) && fault.Some? ==>
      r == Err(Wrap("failed to search clients", Wrap("failed to query clients", fault.value)))
    ensures !IsBlank(q) && fault.None? ==>
      r.Ok? && |r.value| == |rows| && forall i | 0 <= i < |rows| :: r.value[i] == ScanClient(rows[i])
  {
    if IsBlank(q) {
      return Ok([]);
    }
    var query, args, found := ClientRepo.Search(q, fault, rows);
    if found.Err? {
      return Err(Wrap("failed to search clients", found.msg));
    }
    r := found;
  }
}
