/** The documents of the three collections (webview servers, user-delivery
    servers, connections) and the collection itself as a table. */
module Records {
  import opened Common

  /** A webview server or a user-delivery server; both collections hold this shape. */
  datatype Server = Server(id: ObjectId, name: string, status: Status)

  /** A connection pairs one user-delivery server with one webview server. */
  datatype Connection = Connection(
    id: ObjectId,
    status: Status,
    webviewServerApiKey: string,
    userDeliveryServerApiKey: string,
    webviewServerId: ObjectId,
    userDeliveryServerId: ObjectId,
    userDeliveryServerWebHookUrl: string)

  /** The id a connection holds for its server of the given kind. */
  function ServerIdOn(c: Connection, kind: ServerKind): ObjectId {
    match kind
    case Webview => c.webviewServerId
    case UserDelivery => c.userDeliveryServerId
  }

  /** The `{id, name}` projection a connection listing shows for each server. */
  datatype ServerInfo = ServerInfo(id: ObjectId, name: string)

  /** What decoding into a zero `ServerInfo` leaves when the lookup fails. */
  const EmptyServerInfo: ServerInfo := ServerInfo(NilObjectId, "")

  /** One entry of a connection listing. */
  datatype ConnectionResponse = ConnectionResponse(
    id: ObjectId,
    status: Status,
    webviewServerApiKey: string,
    userDeliveryServerApiKey: string,
    webviewServer: ServerInfo,
    userDeliveryServer: ServerInfo,
    userDeliveryServerWebHookUrl: string)

  // ---------------------------------------------------------------------------
  // a collection

  /** A collection: the documents by `_id`, and the natural order in which
      `Find` returns them (the order they were inserted in). */
  datatype Table<T> = Table(records: map<ObjectId, T>, order: seq<ObjectId>)

  predicate Distinct<T(==)>(s: seq<T>) {
    forall i, j :: 0 <= i < j < |s| ==> s[i] != s[j]
  }

  /** Every document appears exactly once in the natural order. */
  ghost predicate WellFormed<T>(t: Table<T>) {
    && Distinct(t.order)
    && (forall id :: id in t.records <==> id in t.order)
  }

  function EmptyTable<T>(): (t: Table<T>)
    ensures WellFormed(t) && t.records == map[]
  {
    Table(map[], [])
  }

  /** The documents in natural order. */
  function Rows<T>(t: Table<T>): (rs: seq<T>)
    requires forall id :: id in t.order ==> id in t.records
    ensures |rs| == |t.order|
    ensures forall i :: 0 <= i < |rs| ==> rs[i] == t.records[t.order[i]]
  {
    seq(|t.order|, i requires 0 <= i < |t.order| => t.records[t.order[i]])
  }

  /** `InsertOne`: a new document under a fresh id, after all the others. */
  function Insert<T>(t: Table<T>, id: ObjectId, r: T): (u: Table<T>)
    requires WellFormed(t) && id !in t.records
    ensures WellFormed(u)
    ensures u.records.Keys == t.records.Keys + {id} && u.records[id] == r
    ensures forall k :: k in t.records ==> u.records[k] == t.records[k]
    ensures Rows(u) == Rows(t) + [r]
  {
    var u := Table(t.records[id := r], t.order + [id]);
    assert forall i :: 0 <= i < |t.order| ==> t.order[i] != id;
    u
  }

  /** `UpdateOne` with `$set`: the document under `id` is replaced, in place. */
  function Put<T>(t: Table<T>, id: ObjectId, r: T): (u: Table<T>)
    requires WellFormed(t) && id in t.records
    ensures WellFormed(u)
    ensures u.order == t.order && u.records.Keys == t.records.Keys && u.records[id] == r
    ensures forall k :: k in t.records && k != id ==> u.records[k] == t.records[k]
  {
    Table(t.records[id := r], t.order)
  }

  /** A filtered `Find`: the rows that satisfy `p`, in their order. */
  function Where<T(==,!new)>(rows: seq<T>, p: T -> bool): (r: seq<T>)
    ensures |r| <= |rows|
    ensures forall x :: x in r <==> x in rows && p(x)
    ensures Distinct(rows) ==> Distinct(r)
  {
    if rows == [] then []
    else
      var rest := Where(rows[1..], p);
      assert Distinct(rows) ==> rows[0] !in rows[1..];
      if p(rows[0]) then [rows[0]] + rest else rest
  }

  /** Filtering commutes with concatenation, so the rows that pass keep their
      relative order: a row that comes first in `a + b` comes first in the result. */
  lemma {:induction false} WhereConcat<T(!new)>(a: seq<T>, b: seq<T>, p: T -> bool)
    ensures Where(a + b, p) == Where(a, p) + Where(b, p)
  {
    if a == [] {
      assert a + b == b;
    } else {
      assert (a + b)[0] == a[0];
      assert (a + b)[1..] == a[1..] + b;
      WhereConcat(a[1..], b, p);
    }
  }

  // ---------------------------------------------------------------------------
  // the cascade, on one connection and on the whole collection

  /** A connection as a server's deactivation leaves it. */
  function Demote(c: Connection, kind: ServerKind, sid: ObjectId): (d: Connection)
    ensures ServerIdOn(c, kind) == sid ==> d.status == Inactive
    ensures ServerIdOn(c, kind) != sid || c.status == Inactive ==> d == c
    ensures d.(status := c.status) == c
  {
    if ServerIdOn(c, kind) == sid && c.status.Active? then c.(status := Inactive) else c
  }

  /** The connection collection after the server `sid` of `kind` became
      inactive: every connection that refers to it is inactive, every other
      connection and every already-inactive one is as it was, and no field
      but the status changes. */
  function Deactivated(t: Table<Connection>, kind: ServerKind, sid: ObjectId): (u: Table<Connection>)
    ensures u.order == t.order && u.records.Keys == t.records.Keys
    ensures forall id :: id in u.records && ServerIdOn(u.records[id], kind) == sid ==>
              u.records[id].status == Inactive
    ensures forall id :: id in t.records && (ServerIdOn(t.records[id], kind) != sid || t.records[id].status == Inactive) ==>
              u.records[id] == t.records[id]
    ensures forall id :: id in t.records ==> u.records[id].(status := t.records[id].status) == t.records[id]
  {
    Table(map id | id in t.records :: Demote(t.records[id], kind, sid), t.order)
  }
}
