/** Vocabulary shared by the three controllers: identifiers, the two-valued
    status, the two server kinds, and the outcome of a handler. */
module Common {

  /** A MongoDB ObjectID. `primitive.NewObjectID()` never yields the all-zero
      value, which is what a failed `primitive.ObjectIDFromHex` returns. */
  type ObjectId = nat

  const NilObjectId: ObjectId := 0

  datatype Option<+T> = None | Some(value: T) {
    function GetOr(default: T): T {
      match this
      case Some(v) => v
      case None => default
    }
  }

  /** The `status` field of every record: the strings "inactive" and "active". */
  datatype Status = Inactive | Active

  /** A status in a request body or query; any other string is not a status. */
  function ParseStatus(s: string): (r: Option<Status>)
    ensures r.Some? <==> s == "active" || s == "inactive"
    ensures r == Some(Active) <==> s == "active"
  {
    if s == "active" then Some(Active)
    else if s == "inactive" then Some(Inactive)
    else None
  }

  /** The two collections of servers a connection pairs. */
  datatype ServerKind = Webview | UserDelivery

  /** Every error response a handler of the core can give. */
  datatype Error =
    | InvalidId                        // 400: a path id that is not a hex ObjectID
    | InvalidBody                      // 400: request body fails its `validate:"required"` tags
    | InvalidStatus                    // 400: "Invalid status value"
    | InvalidWebHookUrl                // 400: url.ParseRequestURI failed
    | ServerNotFound(kind: ServerKind) // 500: the referenced server is not in its collection
    | ConnectionNotFound               // 500: "Id ko tồn tại trong DB"
    | NameTaken                        // 500: a server of this kind already has the name
    | ConnectionExists                 // 500: the (user-delivery, webview) pair is already connected
    | ServerNotActive(kind: ServerKind) // 500: activation refused, that side is not active

  datatype Result<+T> = Ok(value: T) | Err(error: Error)

  /** Success of an update: either the request already held, and nothing was
      written (the "thành công" reply), or the record as read back after the write. */
  datatype Ack<+T> = Unchanged | Changed(record: T)
}
