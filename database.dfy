/** The document store the three controllers share: one table per collection,
    the invariants every handler keeps, and the lemmas that say which writes
    keep them. */
module Database {
  import opened Common
  import opened Records

  function Other(kind: ServerKind): ServerKind {
    match kind
    case Webview => UserDelivery
    case UserDelivery => Webview
  }

  /** A snapshot of the whole store; `nextId` is the next id
      `primitive.NewObjectID()` hands out. */
  datatype Db = Db(
    webviewServers: Table<Server>,
    userDeliveryServers: Table<Server>,
    connections: Table<Connection>,
    nextId: ObjectId)
  {
    /** The server collection of the given kind. */
    function Servers(kind: ServerKind): Table<Server> {
      match kind
      case Webview => webviewServers
      case UserDelivery => userDeliveryServers
    }

    function WithServers(kind: ServerKind, t: Table<Server>): (d: Db)
      ensures d.Servers(kind) == t && d.Servers(Other(kind)) == Servers(Other(kind))
      ensures d.connections == connections && d.nextId == nextId
    {
      match kind
      case Webview => this.(webviewServers := t)
      case UserDelivery => this.(userDeliveryServers := t)
    }
  }

  // ---------------------------------------------------------------------------
  // the invariants

  /** Every server sits under its own `_id`, a non-nil id already handed out. */
  ghost predicate ServerTableOk(t: Table<Server>, nextId: ObjectId) {
    && WellFormed(t)
    && (forall id :: id in t.records ==> t.records[id].id == id && NilObjectId < id < nextId)
  }

  /** Every connection sits under its own `_id`, a non-nil id already handed out. */
  ghost predicate ConnectionTableOk(t: Table<Connection>, nextId: ObjectId) {
    && WellFormed(t)
    && (forall id :: id in t.records ==> t.records[id].id == id && NilObjectId < id < nextId)
  }

  /** I2: no two servers of one kind share a name. */
  ghost predicate UniqueNames(t: Table<Server>) {
    forall a, b :: a in t.records && b in t.records && t.records[a].name == t.records[b].name ==> a == b
  }

  /** I1: no two connections share a (user-delivery server, webview server) pair. */
  ghost predicate UniquePairs(t: Table<Connection>) {
    forall a, b ::
      a in t.records && b in t.records &&
      t.records[a].userDeliveryServerId == t.records[b].userDeliveryServerId &&
      t.records[a].webviewServerId == t.records[b].webviewServerId
      ==> a == b
  }

  /** Both servers a connection names exist. */
  predicate Joins(db: Db, c: Connection) {
    && c.webviewServerId in db.webviewServers.records
    && c.userDeliveryServerId in db.userDeliveryServers.records
  }

  /** Both servers a connection names exist and are active. */
  predicate JoinsActive(db: Db, c: Connection) {
    && Joins(db, c)
    && db.webviewServers.records[c.webviewServerId].status == Active
    && db.userDeliveryServers.records[c.userDeliveryServerId].status == Active
  }

  /** Every connection refers to a server that exists, on each side. */
  ghost predicate Referenced(db: Db) {
    forall id :: id in db.connections.records ==> Joins(db, db.connections.records[id])
  }

  /** I3: an active connection joins two active servers. */
  ghost predicate ActiveBetweenActive(db: Db) {
    forall id :: id in db.connections.records && db.connections.records[id].status == Active ==>
      JoinsActive(db, db.connections.records[id])
  }

  ghost predicate Consistent(db: Db) {
    && NilObjectId < db.nextId
    && ServerTableOk(db.webviewServers, db.nextId)
    && ServerTableOk(db.userDeliveryServers, db.nextId)
    && ConnectionTableOk(db.connections, db.nextId)
    && UniqueNames(db.webviewServers)
    && UniqueNames(db.userDeliveryServers)
    && UniquePairs(db.connections)
    && Referenced(db)
    && ActiveBetweenActive(db)
  }

  // ---------------------------------------------------------------------------
  // the queries the handlers' checks run

  /** `FindOne({"name": name})` finds a document. */
  predicate NameInUse(t: Table<Server>, name: string)
    ensures NameInUse(t, name) <==> exists sv :: sv in t.records.Values && sv.name == name
  {
    exists id :: id in t.records && t.records[id].name == name
  }

  /** `CountDocuments({"userdeliveryserverid": u, "webviewserverid": w}) > 0`. */
  predicate PairInUse(t: Table<Connection>, userDeliveryServerId: ObjectId, webviewServerId: ObjectId)
    ensures PairInUse(t, userDeliveryServerId, webviewServerId) <==>
      exists c :: c in t.records.Values && c.userDeliveryServerId == userDeliveryServerId && c.webviewServerId == webviewServerId
  {
    exists id :: id in t.records &&
      t.records[id].userDeliveryServerId == userDeliveryServerId &&
      t.records[id].webviewServerId == webviewServerId
  }

  // ---------------------------------------------------------------------------
  // the writes that keep the invariants

  /** No server is lost and no active server stops being active. */
  ghost predicate StatusesKept(t: Table<Server>, u: Table<Server>) {
    forall id :: id in t.records ==>
      id in u.records && (t.records[id].status == Active ==> u.records[id].status == Active)
  }

  /** The invariants of one server collection. */
  ghost predicate ServersOk(t: Table<Server>, nextId: ObjectId) {
    ServerTableOk(t, nextId) && UniqueNames(t)
  }

  lemma ServersOkOfKind(db: Db, kind: ServerKind)
    requires Consistent(db)
    ensures ServersOk(db.Servers(kind), db.nextId) && ServersOk(db.Servers(Other(kind)), db.nextId)
  {
    match kind
    case Webview =>
    case UserDelivery =>
  }

  /** Writes to one server collection that keep its own invariants, lose no
      server and deactivate none keep the invariants of the whole store. */
  lemma {:induction false} ServersGrowKeeps(db: Db, kind: ServerKind, u: Table<Server>, nextId: ObjectId)
    requires Consistent(db) && db.nextId <= nextId
    requires ServersOk(u, nextId) && StatusesKept(db.Servers(kind), u)
    ensures Consistent(db.WithServers(kind, u).(nextId := nextId))
  {
    var d := db.WithServers(kind, u).(nextId := nextId);
    ServersOkOfKind(db, kind);
    assert ServersOk(d.Servers(Other(kind)), nextId);
    assert StatusesKept(db.webviewServers, d.webviewServers) by {
      match kind
      case Webview =>
      case UserDelivery =>
    }
    assert StatusesKept(db.userDeliveryServers, d.userDeliveryServers) by {
      match kind
      case Webview =>
      case UserDelivery =>
    }
    assert ServersOk(d.webviewServers, nextId) && ServersOk(d.userDeliveryServers, nextId) by {
      match kind
      case Webview =>
      case UserDelivery =>
    }
    forall id | id in d.connections.records
      ensures Joins(d, d.connections.records[id])
      ensures d.connections.records[id].status == Active ==> JoinsActive(d, d.connections.records[id])
    {
      assert Joins(db, db.connections.records[id]);
    }
  }

  /** Creating a server under a fresh id with an unused name keeps every invariant. */
  lemma InsertServerKeeps(db: Db, kind: ServerKind, name: string)
    requires Consistent(db) && !NameInUse(db.Servers(kind), name)
    ensures db.nextId !in db.Servers(kind).records
    ensures Consistent(db.WithServers(kind, Insert(db.Servers(kind), db.nextId,
                         Server(db.nextId, name, Inactive))).(nextId := db.nextId + 1))
  {
    ServersOkOfKind(db, kind);
    var u := Insert(db.Servers(kind), db.nextId, Server(db.nextId, name, Inactive));
    assert ServersOk(u, db.nextId + 1);
    ServersGrowKeeps(db, kind, u, db.nextId + 1);
  }

  /** Renaming a server to a name no server of its kind holds keeps every invariant. */
  lemma RenameServerKeeps(db: Db, kind: ServerKind, id: ObjectId, name: string)
    requires Consistent(db) && id in db.Servers(kind).records && !NameInUse(db.Servers(kind), name)
    ensures Consistent(db.WithServers(kind, Put(db.Servers(kind), id,
                         db.Servers(kind).records[id].(name := name))))
  {
    ServersOkOfKind(db, kind);
    var t := db.Servers(kind);
    var u := Put(t, id, t.records[id].(name := name));
    assert ServersOk(u, db.nextId);
    ServersGrowKeeps(db, kind, u, db.nextId);
    assert db.WithServers(kind, u).(nextId := db.nextId) == db.WithServers(kind, u);
  }

  /** Activating a server keeps every invariant. */
  lemma ActivateServerKeeps(db: Db, kind: ServerKind, id: ObjectId)
    requires Consistent(db) && id in db.Servers(kind).records
    ensures Consistent(db.WithServers(kind, Put(db.Servers(kind), id,
                         db.Servers(kind).records[id].(status := Active))))
  {
    ServersOkOfKind(db, kind);
    var t := db.Servers(kind);
    var u := Put(t, id, t.records[id].(status := Active));
    assert ServersOk(u, db.nextId);
    ServersGrowKeeps(db, kind, u, db.nextId);
    assert db.WithServers(kind, u).(nextId := db.nextId) == db.WithServers(kind, u);
  }

  /** Deactivating a server keeps every invariant, I3 included, provided the
      cascade runs: the connections that refer to it become inactive too. */
  lemma {:induction false} DeactivateServerKeeps(db: Db, kind: ServerKind, id: ObjectId)
    requires Consistent(db) && id in db.Servers(kind).records
    ensures Consistent(db.WithServers(kind, Put(db.Servers(kind), id,
                         db.Servers(kind).records[id].(status := Inactive)))
                         .(connections := Deactivated(db.connections, kind, id)))
  {
    ServersOkOfKind(db, kind);
    var t := db.Servers(kind);
    var u := Put(t, id, t.records[id].(status := Inactive));
    assert ServersOk(u, db.nextId);
    var c := Deactivated(db.connections, kind, id);
    var d := db.WithServers(kind, u).(connections := c);
    assert ServersOk(d.webviewServers, d.nextId) && ServersOk(d.userDeliveryServers, d.nextId) by {
      match kind
      case Webview =>
      case UserDelivery =>
    }
    forall x | x in c.records
      ensures c.records[x].(status := db.connections.records[x].status) == db.connections.records[x]
    {
    }
    assert ConnectionTableOk(c, d.nextId);
    assert UniquePairs(c);
    forall x | x in c.records
      ensures Joins(d, c.records[x])
      ensures c.records[x].status == Active ==> JoinsActive(d, c.records[x])
    {
      var old_ := db.connections.records[x];
      assert Joins(db, old_);
      if c.records[x].status == Active {
        assert old_.status == Active;
        assert JoinsActive(db, old_);
        assert ServerIdOn(old_, kind) != id;
        match kind
        case Webview =>
        case UserDelivery =>
      }
    }
  }

  /** Creating a connection between two existing servers, for a pair not yet
      connected, keeps every invariant. */
  lemma InsertConnectionKeeps(db: Db, c: Connection)
    requires Consistent(db)
    requires c.id == db.nextId && c.status == Inactive && Joins(db, c)
    requires !PairInUse(db.connections, c.userDeliveryServerId, c.webviewServerId)
    ensures db.nextId !in db.connections.records
    ensures Consistent(db.(connections := Insert(db.connections, db.nextId, c), nextId := db.nextId + 1))
  {
    var u := Insert(db.connections, db.nextId, c);
    var d := db.(connections := u, nextId := db.nextId + 1);
    assert UniquePairs(u);
    assert Referenced(d);
    assert ActiveBetweenActive(d);
  }

  /** Rewriting one connection in place, keeping its id and its pair, keeps
      every invariant provided it is active only between active servers. */
  lemma {:induction false} RewriteConnectionKeeps(db: Db, id: ObjectId, c: Connection)
    requires Consistent(db) && id in db.connections.records
    requires c.id == id
    requires c.webviewServerId == db.connections.records[id].webviewServerId
    requires c.userDeliveryServerId == db.connections.records[id].userDeliveryServerId
    requires c.status == Active ==> JoinsActive(db, c)
    ensures Consistent(db.(connections := Put(db.connections, id, c)))
  {
    var t := db.connections;
    var u := Put(t, id, c);
    var d := db.(connections := u);
    assert ConnectionTableOk(u, d.nextId);
    forall a, b | a in u.records && b in u.records &&
        u.records[a].userDeliveryServerId == u.records[b].userDeliveryServerId &&
        u.records[a].webviewServerId == u.records[b].webviewServerId
      ensures a == b
    {
      assert t.records[a].userDeliveryServerId == u.records[a].userDeliveryServerId;
      assert t.records[b].userDeliveryServerId == u.records[b].userDeliveryServerId;
      assert t.records[a].webviewServerId == u.records[a].webviewServerId;
      assert t.records[b].webviewServerId == u.records[b].webviewServerId;
    }
    forall x | x in u.records
      ensures Joins(d, u.records[x])
      ensures u.records[x].status == Active ==> JoinsActive(d, u.records[x])
    {
      assert Joins(db, t.records[x]);
    }
  }

  /** Changing the webhook URL of a connection keeps every invariant. */
  lemma SetWebHookUrlKeeps(db: Db, id: ObjectId, url: string)
    requires Consistent(db) && id in db.connections.records
    ensures Consistent(db.(connections := Put(db.connections, id,
                         db.connections.records[id].(userDeliveryServerWebHookUrl := url))))
  {
    var c := db.connections.records[id];
    assert c.status == Active ==> JoinsActive(db, c);
    RewriteConnectionKeeps(db, id, c.(userDeliveryServerWebHookUrl := url));
  }

  /** Changing the status of a connection keeps every invariant, provided that
      a connection is only made active while both its servers are. */
  lemma SetConnectionStatusKeeps(db: Db, id: ObjectId, status: Status)
    requires Consistent(db) && id in db.connections.records
    requires status == Active ==> JoinsActive(db, db.connections.records[id])
    ensures Consistent(db.(connections := Put(db.connections, id,
                         db.connections.records[id].(status := status))))
  {
    RewriteConnectionKeeps(db, id, db.connections.records[id].(status := status));
  }

  // ---------------------------------------------------------------------------
  // the store object

  /** The three collections, as the handlers see them. */
  class Store {
    var webviewServers: Table<Server>
    var userDeliveryServers: Table<Server>
    var connections: Table<Connection>
    var nextId: ObjectId

    function State(): Db
      reads this
    {
      Db(webviewServers, userDeliveryServers, connections, nextId)
    }

    ghost predicate Valid()
      reads this
    {
      Consistent(State())
    }

    /** Three empty collections. */
    constructor ()
      ensures Valid()
      ensures State() == Db(EmptyTable(), EmptyTable(), EmptyTable(), 1)
    {
      webviewServers := EmptyTable();
      userDeliveryServers := EmptyTable();
      connections := EmptyTable();
      nextId := 1;
    }

    /** `primitive.NewObjectID()`: an id never handed out before. */
    method NewObjectId() returns (id: ObjectId)
      modifies this
      ensures id == old(nextId) && State() == old(State()).(nextId := id + 1)
    {
      id := nextId;
      nextId := nextId + 1;
    }

    /** Replaces the server collection of one kind. */
    method SetServers(kind: ServerKind, t: Table<Server>)
      modifies this
      ensures State() == old(State()).WithServers(kind, t)
    {
      match kind
      case Webview => webviewServers := t;
      case UserDelivery => userDeliveryServers := t;
    }

    /** Replaces the connection collection. */
    method SetConnections(t: Table<Connection>)
      modifies this
      ensures State() == old(State()).(connections := t)
    {
      connections := t;
    }
  }
}
