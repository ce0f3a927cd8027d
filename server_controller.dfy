/** The handlers of the webview-server and the user-delivery-server
    controllers. The two controllers are the same code over two collections,
    so each handler is written once, for a `ServerKind`. */
module ServerController {
  import opened Common
  import opened Query
  import opened Records
  import opened Database

  /** The body of a GetAll reply: one page of servers and the pagination block. */
  datatype ServerPage = ServerPage(list: seq<Server>, total: nat, limit: int, page: int)

  /** The filter GetAll builds: the keyword, when not empty, as a
      case-insensitive regular expression on the name (`nameMatches` stands for
      MongoDB's `$regex` with `$options: "i"`), and the status only when it is
      exactly "active" or "inactive". */
  predicate Selected(sv: Server, keyword: string, status: string, nameMatches: (string, string) -> bool) {
    && (keyword != "" ==> nameMatches(keyword, sv.name))
    && (ParseStatus(status).Some? ==> sv.status == ParseStatus(status).value)
  }

  /** The servers of one kind that the filter selects, in natural order. */
  function Matching(t: Table<Server>, keyword: string, status: string, nameMatches: (string, string) -> bool): (ms: seq<Server>)
    requires WellFormed(t)
    ensures forall sv :: sv in ms <==> sv in t.records.Values && Selected(sv, keyword, status, nameMatches)
  {
    Where(Rows(t), sv => Selected(sv, keyword, status, nameMatches))
  }

  /** CreateWebviewServer / CreateUserDeliveryServer. */
  method CreateServer(s: Store, kind: ServerKind, name: string) returns (r: Result<ObjectId>)
    requires s.Valid()
    modifies s
    ensures s.Valid()
    ensures r.Ok? <==> name != "" && !NameInUse(old(s.State()).Servers(kind), name)
    ensures name == "" ==> r == Err(InvalidBody)
    ensures name != "" && NameInUse(old(s.State()).Servers(kind), name) ==> r == Err(NameTaken)
    ensures r.Err? ==> s.State() == old(s.State())
    ensures r.Ok? ==>
      && r.value == old(s.nextId)
      && r.value != NilObjectId
      && r.value !in old(s.State()).Servers(kind).records
      && s.State() == old(s.State()).WithServers(kind,
           Insert(old(s.State()).Servers(kind), r.value, Server(r.value, name, Inactive))).(nextId := r.value + 1)
  {
    if name == "" {
      return Err(InvalidBody);
    }
    if NameInUse(s.State().Servers(kind), name) {
      return Err(NameTaken);
    }
    ghost var db := s.State();
    InsertServerKeeps(db, kind, name);
    var servers := s.State().Servers(kind);
    var id := s.NewObjectId();
    s.SetServers(kind, Insert(servers, id, Server(id, name, Inactive)));
    r := Ok(id);
  }

  /** GetAllWebviewServers / GetAllUserDeliveryServers. */
  method ListServers(s: Store, kind: ServerKind, keyword: string, status: string,
                     limitStr: string, pageStr: string, nameMatches: (string, string) -> bool)
    returns (r: ServerPage)
    requires s.Valid()
    ensures r.limit == ParseLimit(limitStr) && r.page == ParsePage(pageStr)
    ensures r.total == |Matching(s.State().Servers(kind), keyword, status, nameMatches)|
    ensures r.list == PageRows(Matching(s.State().Servers(kind), keyword, status, nameMatches), r.page, r.limit)
    ensures |r.list| <= r.limit
    ensures forall sv :: sv in r.list ==>
      sv in s.State().Servers(kind).records.Values && Selected(sv, keyword, status, nameMatches)
  {
    var limit := DefaultLimit;
    var page := DefaultPage;
    if limitStr != "" {
      var parsed := Atoi(limitStr);
      if parsed.Some? && parsed.value > 0 {
        limit := parsed.value;
      }
    }
    if pageStr != "" {
      var parsed := Atoi(pageStr);
      if parsed.Some? && parsed.value > 0 {
        page := parsed.value;
      }
    }
    ServersOkOfKind(s.State(), kind);
    var matches := Matching(s.State().Servers(kind), keyword, status, nameMatches);
    var list := Window(matches, Skip(page, limit), limit);
    forall sv | sv in list ensures sv in matches {
      var i :| 0 <= i < |list| && list[i] == sv;
    }
    r := ServerPage(list, |matches|, limit, page);
  }

  /** GetWebviewServerDetail / GetUserDeliveryServerDetail. The parse error of
      the path id is ignored there, so a malformed id looks up the nil id. */
  method GetServerDetail(s: Store, kind: ServerKind, idHex: Option<ObjectId>) returns (r: Result<Server>)
    requires s.Valid()
    ensures r.Ok? <==> idHex.Some? && idHex.value in s.State().Servers(kind).records
    ensures r.Ok? ==> r.value == s.State().Servers(kind).records[idHex.value] && r.value.id == idHex.value
    ensures r.Err? ==> r.error == ServerNotFound(kind)
  {
    ServersOkOfKind(s.State(), kind);
    var objId := idHex.GetOr(NilObjectId);
    var servers := s.State().Servers(kind);
    if objId !in servers.records {
      return Err(ServerNotFound(kind));
    }
    r := Ok(servers.records[objId]);
  }

  /** UpdateWebviewServer / UpdateUserDeliveryServer: renames a server. */
  method RenameServer(s: Store, kind: ServerKind, idHex: Option<ObjectId>, name: string)
    returns (r: Result<Ack<Server>>)
    requires s.Valid()
    modifies s
    ensures s.Valid()
    ensures idHex.None? ==> r == Err(InvalidId)
    ensures idHex.Some? && name == "" ==> r == Err(InvalidBody)
    ensures idHex.Some? && name != "" ==>
      var servers := old(s.State()).Servers(kind).records;
      var id := idHex.value;
      && (id !in servers ==> r == Err(ServerNotFound(kind)))
      && (id in servers && servers[id].name == name ==> r == Ok(Unchanged))
      && (id in servers && servers[id].name != name && NameInUse(old(s.State()).Servers(kind), name) ==>
            r == Err(NameTaken))
      && (id in servers && !NameInUse(old(s.State()).Servers(kind), name) ==>
            r == Ok(Changed(servers[id].(name := name))))
    ensures !(r.Ok? && r.value.Changed?) ==> s.State() == old(s.State())
    ensures r.Ok? && r.value.Changed? ==>
      s.State() == old(s.State()).WithServers(kind, Put(old(s.State()).Servers(kind), idHex.value, r.value.record))
  {
    if idHex.None? {
      return Err(InvalidId);
    }
    var objId := idHex.value;
    if name == "" {
      return Err(InvalidBody);
    }
    var servers := s.State().Servers(kind);
    if objId !in servers.records {
      return Err(ServerNotFound(kind));
    }
    var found := servers.records[objId];
    if found.name == name {
      return Ok(Unchanged);
    }
    if NameInUse(servers, name) {
      return Err(NameTaken);
    }
    ghost var db := s.State();
    RenameServerKeeps(db, kind, objId, name);
    s.SetServers(kind, Put(servers, objId, found.(name := name)));
    r := Ok(Changed(s.State().Servers(kind).records[objId]));
  }

  /** ChangeStatusWebviewServer / ChangeStatusUserDeliveryServer. A move to
      "inactive" ends with the cascade over the connections of the server. */
  method ChangeServerStatus(s: Store, kind: ServerKind, idHex: Option<ObjectId>, status: string)
    returns (r: Result<Ack<Server>>)
    requires s.Valid()
    modifies s
    ensures s.Valid()
    ensures
      var servers := old(s.State()).Servers(kind).records;
      var id := idHex.GetOr(NilObjectId);
      && (id !in servers ==> r == Err(ServerNotFound(kind)))
      && (id in servers && ParseStatus(status).None? ==> r == Err(InvalidStatus))
      && (id in servers && ParseStatus(status) == Some(servers[id].status) ==> r == Ok(Unchanged))
      && (id in servers && ParseStatus(status).Some? && ParseStatus(status).value != servers[id].status ==>
            r == Ok(Changed(servers[id].(status := ParseStatus(status).value))))
    ensures idHex.None? ==> r == Err(ServerNotFound(kind))
    ensures !(r.Ok? && r.value.Changed?) ==> s.State() == old(s.State())
    ensures r.Ok? && r.value.Changed? ==>
      var id := idHex.value;
      var st := r.value.record.status;
      && s.State().Servers(kind) == Put(old(s.State()).Servers(kind), id, r.value.record)
      && s.State().Servers(Other(kind)) == old(s.State()).Servers(Other(kind))
      && s.nextId == old(s.nextId)
      && s.connections == (if st == Inactive then Deactivated(old(s.connections), kind, id) else old(s.connections))
    ensures r.Ok? && status == "inactive" ==>
      forall c :: c in s.connections.records.Values && ServerIdOn(c, kind) == idHex.value ==> c.status == Inactive
  {
    ServersOkOfKind(s.State(), kind);
    var objId := idHex.GetOr(NilObjectId);
    var servers := s.State().Servers(kind);
    if objId !in servers.records {
      return Err(ServerNotFound(kind));
    }
    var server := servers.records[objId];
    var requested := ParseStatus(status);
    if requested.None? {
      return Err(InvalidStatus);
    }
    if requested.value == server.status {
      return Ok(Unchanged);
    }
    ghost var db := s.State();
    s.SetServers(kind, Put(servers, objId, server.(status := requested.value)));
    if requested.value == Inactive {
      DeactivateServerKeeps(db, kind, objId);
      DeactivateConnections(s, kind, server.id);
    } else {
      ActivateServerKeeps(db, kind, objId);
    }
    r := Ok(Changed(s.State().Servers(kind).records[objId]));
  }

  /** The cascade: walks the connections that refer to server `sid` on the
      `kind` side, in natural order, and writes "inactive" over each one that
      is active, one document at a time. */
  method DeactivateConnections(s: Store, kind: ServerKind, sid: ObjectId)
    requires WellFormed(s.connections)
    modifies s
    ensures s.State() == old(s.State()).(connections := Deactivated(old(s.connections), kind, sid))
  {
    var before := s.connections;
    var matched := Where(before.order, id => id in before.records && ServerIdOn(before.records[id], kind) == sid);
    var i := 0;
    while i < |matched|
      invariant 0 <= i <= |matched|
      invariant s.webviewServers == old(s.webviewServers) && s.userDeliveryServers == old(s.userDeliveryServers)
      invariant s.nextId == old(s.nextId)
      invariant WellFormed(s.connections)
      invariant CascadedUpTo(before, matched[..i], kind, sid, s.connections)
    {
      var id := matched[i];
      var connection := s.connections.records[id];
      ghost var current := s.connections;
      if connection.status == Active {
        s.connections := Put(s.connections, id, connection.(status := Inactive));
      }
      CascadeStep(before, matched, i, kind, sid, current, s.connections);
      i := i + 1;
    }
    assert matched[..i] == matched;
    CascadeComplete(before, matched, kind, sid, s.connections);
  }

  /** The cascade has visited the connections in `done` and no other. */
  ghost predicate CascadedUpTo(before: Table<Connection>, done: seq<ObjectId>, kind: ServerKind, sid: ObjectId,
                               current: Table<Connection>)
  {
    && WellFormed(before)
    && current.order == before.order && current.records.Keys == before.records.Keys
    && forall id :: id in before.records ==>
         current.records[id] == if id in done then Demote(before.records[id], kind, sid) else before.records[id]
  }

  /** One turn of the cascade loop visits the next referring connection. */
  lemma CascadeStep(before: Table<Connection>, matched: seq<ObjectId>, i: nat, kind: ServerKind, sid: ObjectId,
                    current: Table<Connection>, next: Table<Connection>)
    requires i < |matched| && Distinct(matched)
    requires forall id :: id in matched ==> id in before.records && ServerIdOn(before.records[id], kind) == sid
    requires CascadedUpTo(before, matched[..i], kind, sid, current)
    requires WellFormed(current) && matched[i] in current.records
    requires next == if current.records[matched[i]].status == Active
                     then Put(current, matched[i], current.records[matched[i]].(status := Inactive))
                     else current
    ensures CascadedUpTo(before, matched[..i + 1], kind, sid, next)
  {
    var id := matched[i];
    assert matched[..i + 1] == matched[..i] + [id];
    assert id !in matched[..i];
  }

  /** Once every referring connection has been visited, the collection is the
      one the cascade specifies. */
  lemma CascadeComplete(before: Table<Connection>, matched: seq<ObjectId>, kind: ServerKind, sid: ObjectId,
                        after: Table<Connection>)
    requires forall id :: id in matched <==> id in before.order && id in before.records && ServerIdOn(before.records[id], kind) == sid
    requires CascadedUpTo(before, matched, kind, sid, after)
    ensures after == Deactivated(before, kind, sid)
  {
    var d := Deactivated(before, kind, sid);
    assert forall id :: id in before.records ==> after.records[id] == d.records[id];
    assert after.records == d.records;
  }
}
