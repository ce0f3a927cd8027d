/** The handlers of the connection controller: create a connection between a
    user-delivery server and a webview server, list the connections of a
    user-delivery server, change a connection's webhook URL, and change its
    status under the activation guard. */
module ConnectionController {
  import opened Common
  import opened Query
  import opened Records
  import opened Database

  /** `url.ParseRequestURI` succeeds. It always refuses the empty string (its
      "empty url" error); the rest of its grammar is the parameter `uriGrammar`. */
  predicate ParsesAsRequestUri(url: string, uriGrammar: string -> bool)
    ensures ParsesAsRequestUri(url, uriGrammar) ==> url != ""
  {
    url != "" && uriGrammar(url)
  }

  /** The `{id, name}` of a server, or the empty projection when the lookup
      fails. Since no server has the nil id, the empty projection marks
      exactly a failed lookup. */
  function InfoOf(t: Table<Server>, id: ObjectId): (info: ServerInfo)
    requires forall k :: k in t.records ==> t.records[k].id == k && k != NilObjectId
    ensures info == EmptyServerInfo <==> id !in t.records
    ensures id in t.records ==> info.id == id && info.name == t.records[id].name
  {
    if id in t.records then ServerInfo(t.records[id].id, t.records[id].name) else EmptyServerInfo
  }

  /** One listing entry: the connection's own fields, and both of its servers
      resolved, each empty exactly when that server is missing. */
  function Describe(c: Connection, db: Db): (d: ConnectionResponse)
    requires forall k :: k in db.webviewServers.records ==> db.webviewServers.records[k].id == k && k != NilObjectId
    requires forall k :: k in db.userDeliveryServers.records ==>
               db.userDeliveryServers.records[k].id == k && k != NilObjectId
    ensures d.id == c.id && d.status == c.status && d.userDeliveryServerWebHookUrl == c.userDeliveryServerWebHookUrl
    ensures d.webviewServerApiKey == c.webviewServerApiKey && d.userDeliveryServerApiKey == c.userDeliveryServerApiKey
    ensures d.webviewServer == EmptyServerInfo <==> c.webviewServerId !in db.webviewServers.records
    ensures d.userDeliveryServer == EmptyServerInfo <==> c.userDeliveryServerId !in db.userDeliveryServers.records
  {
    ConnectionResponse(c.id, c.status, c.webviewServerApiKey, c.userDeliveryServerApiKey,
                       InfoOf(db.webviewServers, c.webviewServerId),
                       InfoOf(db.userDeliveryServers, c.userDeliveryServerId),
                       c.userDeliveryServerWebHookUrl)
  }

  /** In a consistent store the empty fallback never shows: every listed
      connection carries the id and the current name of both of its servers. */
  lemma DescribeResolves(db: Db, id: ObjectId)
    requires Consistent(db) && id in db.connections.records
    ensures var c := db.connections.records[id];
      && Describe(c, db).webviewServer ==
           ServerInfo(c.webviewServerId, db.webviewServers.records[c.webviewServerId].name)
      && Describe(c, db).userDeliveryServer ==
           ServerInfo(c.userDeliveryServerId, db.userDeliveryServers.records[c.userDeliveryServerId].name)
  {
    var c := db.connections.records[id];
    assert Joins(db, c);
  }

  /** The filter GetAllConnections builds: the user-delivery server of the
      path, the webview server when its query parameter parses as an id, and
      the status only when it is exactly "active" or "inactive". */
  predicate Selects(c: Connection, userDeliveryServerId: ObjectId, webviewServerIdHex: Option<ObjectId>, status: string) {
    && c.userDeliveryServerId == userDeliveryServerId
    && (webviewServerIdHex.Some? ==> c.webviewServerId == webviewServerIdHex.value)
    && (ParseStatus(status).Some? ==> c.status == ParseStatus(status).value)
  }

  /** The connections the filter selects, in natural order. */
  function Matching(t: Table<Connection>, userDeliveryServerId: ObjectId, webviewServerIdHex: Option<ObjectId>,
                    status: string): (ms: seq<Connection>)
    requires WellFormed(t)
    ensures forall c :: c in ms <==> c in t.records.Values && Selects(c, userDeliveryServerId, webviewServerIdHex, status)
  {
    Where(Rows(t), c => Selects(c, userDeliveryServerId, webviewServerIdHex, status))
  }

  /** The body of a GetAllConnections reply. */
  datatype ConnectionPage = ConnectionPage(list: seq<ConnectionResponse>, total: nat, limit: int, page: int)

  /** The activation guard: the first reason, in the order the handler checks
      them, why a connection may not become active; none exactly when both of
      its servers exist and are active. */
  function ActivationBlocker(db: Db, c: Connection): (e: Option<Error>)
    ensures e.None? <==> JoinsActive(db, c)
    ensures e.Some? ==> e.value.ServerNotFound? || e.value.ServerNotActive?
  {
    if c.webviewServerId !in db.webviewServers.records then Some(ServerNotFound(Webview))
    else if c.userDeliveryServerId !in db.userDeliveryServers.records then Some(ServerNotFound(UserDelivery))
    else if db.userDeliveryServers.records[c.userDeliveryServerId].status != Active then Some(ServerNotActive(UserDelivery))
    else if db.webviewServers.records[c.webviewServerId].status != Active then Some(ServerNotActive(Webview))
    else None
  }

  /** CreateConnection. The two API keys are the values `helpers.GenerateAPIKey(32)`
      produced for this request. */
  method CreateConnection(s: Store, userDeliveryServerIdHex: Option<ObjectId>, webviewServerId: ObjectId,
                          webHookUrl: string, webviewServerApiKey: string, userDeliveryServerApiKey: string,
                          uriGrammar: string -> bool)
    returns (r: Result<ObjectId>)
    requires s.Valid()
    modifies s
    ensures s.Valid()
    ensures webviewServerId == NilObjectId ==> r == Err(InvalidBody)
    ensures webviewServerId != NilObjectId ==>
      var db := old(s.State());
      && (userDeliveryServerIdHex.None? ==> r == Err(InvalidId))
      && (userDeliveryServerIdHex.Some? ==>
          var uid := userDeliveryServerIdHex.value;
          && (uid !in db.userDeliveryServers.records ==> r == Err(ServerNotFound(UserDelivery)))
          && (uid in db.userDeliveryServers.records && webviewServerId !in db.webviewServers.records ==>
                r == Err(ServerNotFound(Webview)))
          && (uid in db.userDeliveryServers.records && webviewServerId in db.webviewServers.records ==>
                && (webHookUrl != "" && !ParsesAsRequestUri(webHookUrl, uriGrammar) ==> r == Err(InvalidWebHookUrl))
                && (webHookUrl == "" || ParsesAsRequestUri(webHookUrl, uriGrammar) ==>
                      r == if PairInUse(db.connections, uid, webviewServerId) then Err(ConnectionExists)
                           else Ok(db.nextId))))
    ensures r.Err? ==> s.State() == old(s.State())
    ensures r.Ok? ==>
      && userDeliveryServerIdHex.Some?
      && r.value !in old(s.connections.records)
      && s.State() == old(s.State()).(
           connections := Insert(old(s.connections), r.value,
             Connection(r.value, Inactive, webviewServerApiKey, userDeliveryServerApiKey,
                        webviewServerId, userDeliveryServerIdHex.value, webHookUrl)),
           nextId := r.value + 1)
  {
    if webviewServerId == NilObjectId {
      return Err(InvalidBody);
    }
    if userDeliveryServerIdHex.None? {
      return Err(InvalidId);
    }
    var userDeliveryServerId := userDeliveryServerIdHex.value;
    if userDeliveryServerId !in s.userDeliveryServers.records {
      return Err(ServerNotFound(UserDelivery));
    }
    if webviewServerId !in s.webviewServers.records {
      return Err(ServerNotFound(Webview));
    }
    if webHookUrl != "" && !ParsesAsRequestUri(webHookUrl, uriGrammar) {
      return Err(InvalidWebHookUrl);
    }
    if PairInUse(s.connections, userDeliveryServerId, webviewServerId) {
      return Err(ConnectionExists);
    }
    ghost var db := s.State();
    var connections := s.connections;
    var id := s.NewObjectId();
    var connection := Connection(id, Inactive, webviewServerApiKey, userDeliveryServerApiKey,
                                 webviewServerId, userDeliveryServerId, webHookUrl);
    InsertConnectionKeeps(db, connection);
    s.SetConnections(Insert(connections, id, connection));
    r := Ok(id);
  }

  /** GetAllConnections: one page of the connections of a user-delivery
      server, each with both of its servers resolved, and the total count of
      the filter. */
  method ListConnections(s: Store, userDeliveryServerIdHex: Option<ObjectId>, webviewServerIdHex: Option<ObjectId>,
                         status: string, limitStr: string, pageStr: string)
    returns (r: Result<ConnectionPage>)
    requires s.Valid()
    ensures userDeliveryServerIdHex.None? ==> r == Err(InvalidId)
    ensures r.Ok? <==> userDeliveryServerIdHex.Some? && userDeliveryServerIdHex.value in s.userDeliveryServers.records
    ensures userDeliveryServerIdHex.Some? && !r.Ok? ==> r == Err(ServerNotFound(UserDelivery))
    ensures r.Ok? ==>
      var matches := Matching(s.connections, userDeliveryServerIdHex.value, webviewServerIdHex, status);
      var rows := PageRows(matches, ParsePage(pageStr), ParseLimit(limitStr));
      && r.value.limit == ParseLimit(limitStr)
      && r.value.page == ParsePage(pageStr)
      && r.value.total == |matches|
      && |r.value.list| == |rows| <= r.value.limit
      && forall i :: 0 <= i < |rows| ==> r.value.list[i] == Describe(rows[i], s.State())
  {
    if userDeliveryServerIdHex.None? {
      return Err(InvalidId);
    }
    var userDeliveryServerId := userDeliveryServerIdHex.value;
    if userDeliveryServerId !in s.userDeliveryServers.records {
      return Err(ServerNotFound(UserDelivery));
    }
    var limit := DefaultLimit;
    var page := DefaultPage;
    if limitStr != "" {
      var parsed := Atoi(limitStr);
      if parsed.Some? && parsed.value > 0 {
        limit := parsed.value;
      }
    }
    if pageStr != "" {
      var parsed := Atoi(pageStr);
      if parsed.Some? && parsed.value > 0 {
        page := parsed.value;
      }
    }
    var matches := Matching(s.connections, userDeliveryServerId, webviewServerIdHex, status);
    var rows := Window(matches, Skip(page, limit), limit);
    var responses := DescribeAll(s, rows);
    r := Ok(ConnectionPage(responses, |matches|, limit, page));
  }

  /** The lookup loop of GetAllConnections: each connection of the page with
      the `{id, name}` of both of its servers, fetched one at a time. */
  method DescribeAll(s: Store, rows: seq<Connection>) returns (responses: seq<ConnectionResponse>)
    requires s.Valid()
    ensures |responses| == |rows|
    ensures forall k :: 0 <= k < |rows| ==> responses[k] == Describe(rows[k], s.State())
  {
    responses := [];
    var i := 0;
    while i < |rows|
      invariant 0 <= i <= |rows|
      invariant |responses| == i
      invariant forall k :: 0 <= k < i ==> responses[k] == Describe(rows[k], s.State())
    {
      var conn := rows[i];
      var webviewServer := EmptyServerInfo;
      if conn.webviewServerId in s.webviewServers.records {
        var found := s.webviewServers.records[conn.webviewServerId];
        webviewServer := ServerInfo(found.id, found.name);
      }
      var userDeliveryServer := EmptyServerInfo;
      if conn.userDeliveryServerId in s.userDeliveryServers.records {
        var found := s.userDeliveryServers.records[conn.userDeliveryServerId];
        userDeliveryServer := ServerInfo(found.id, found.name);
      }
      responses := responses + [ConnectionResponse(conn.id, conn.status, conn.webviewServerApiKey,
                                                   conn.userDeliveryServerApiKey, webviewServer,
                                                   userDeliveryServer, conn.userDeliveryServerWebHookUrl)];
      i := i + 1;
    }
  }

  /** UpdateConnectionWebhookUrl. */
  method UpdateWebHookUrl(s: Store, idHex: Option<ObjectId>, url: string, uriGrammar: string -> bool)
    returns (r: Result<Ack<Connection>>)
    requires s.Valid()
    modifies s
    ensures s.Valid()
    ensures idHex.None? ==> r == Err(InvalidId)
    ensures idHex.Some? ==>
      var connections := old(s.connections.records);
      var id := idHex.value;
      && (id !in connections ==> r == Err(ConnectionNotFound))
      && (id in connections && !ParsesAsRequestUri(url, uriGrammar) ==> r == Err(InvalidWebHookUrl))
      && (id in connections && ParsesAsRequestUri(url, uriGrammar) ==>
            r == if connections[id].userDeliveryServerWebHookUrl == url then Ok(Unchanged)
                 else Ok(Changed(connections[id].(userDeliveryServerWebHookUrl := url))))
    ensures url == "" ==> r.Err?
    ensures !(r.Ok? && r.value.Changed?) ==> s.State() == old(s.State())
    ensures r.Ok? && r.value.Changed? ==>
      s.State() == old(s.State()).(connections := Put(old(s.connections), idHex.value, r.value.record))
  {
    if idHex.None? {
      return Err(InvalidId);
    }
    var objId := idHex.value;
    if objId !in s.connections.records {
      return Err(ConnectionNotFound);
    }
    var connection := s.connections.records[objId];
    if !ParsesAsRequestUri(url, uriGrammar) {
      return Err(InvalidWebHookUrl);
    }
    if url == connection.userDeliveryServerWebHookUrl {
      return Ok(Unchanged);
    }
    SetWebHookUrlKeeps(s.State(), objId, url);
    s.SetConnections(Put(s.connections, objId, connection.(userDeliveryServerWebHookUrl := url)));
    r := Ok(Changed(s.connections.records[objId]));
  }

  /** ChangeStatusConnection. The activation guard runs before the check for
      an unchanged status. */
  method ChangeConnectionStatus(s: Store, idHex: Option<ObjectId>, status: string)
    returns (r: Result<Ack<Connection>>)
    requires s.Valid()
    modifies s
    ensures s.Valid()
    ensures idHex.None? ==> r == Err(InvalidId)
    ensures idHex.Some? ==>
      var connections := old(s.connections.records);
      var id := idHex.value;
      var requested := ParseStatus(status);
      && (id !in connections ==> r == Err(ConnectionNotFound))
      && (id in connections && requested.None? ==> r == Err(InvalidStatus))
      && (id in connections && requested == Some(Active) && ActivationBlocker(old(s.State()), connections[id]).Some? ==>
            r == Err(ActivationBlocker(old(s.State()), connections[id]).value))
      && (id in connections && requested.Some? &&
          (requested.value == Inactive || ActivationBlocker(old(s.State()), connections[id]).None?) ==>
            r == if requested.value == connections[id].status then Ok(Unchanged)
                 else Ok(Changed(connections[id].(status := requested.value))))
    ensures !(r.Ok? && r.value.Changed?) ==> s.State() == old(s.State())
    ensures r.Ok? && r.value.Changed? ==>
      && s.State() == old(s.State()).(connections := Put(old(s.connections), idHex.value, r.value.record))
      && (r.value.record.status == Active ==> JoinsActive(old(s.State()), r.value.record))
  {
    if idHex.None? {
      return Err(InvalidId);
    }
    var objId := idHex.value;
    if objId !in s.connections.records {
      return Err(ConnectionNotFound);
    }
    var connection := s.connections.records[objId];
    var requested := ParseStatus(status);
    if requested.None? {
      return Err(InvalidStatus);
    }
    if requested.value == Active {
      if connection.webviewServerId !in s.webviewServers.records {
        return Err(ServerNotFound(Webview));
      }
      var webviewServer := s.webviewServers.records[connection.webviewServerId];
      if connection.userDeliveryServerId !in s.userDeliveryServers.records {
        return Err(ServerNotFound(UserDelivery));
      }
      var userDeliveryServer := s.userDeliveryServers.records[connection.userDeliveryServerId];
      if userDeliveryServer.status != Active {
        return Err(ServerNotActive(UserDelivery));
      }
      if webviewServer.status != Active {
        return Err(ServerNotActive(Webview));
      }
    }
    if requested.value == connection.status {
      return Ok(Unchanged);
    }
    SetConnectionStatusKeeps(s.State(), objId, requested.value);
    s.SetConnections(Put(s.connections, objId, connection.(status := requested.value)));
    r := Ok(Changed(s.connections.records[objId]));
  }
}
