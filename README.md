# Notification server: server and connection lifecycle

This project models the core of a notification server written in Go on Echo and MongoDB.

The server keeps three collections:

- **webview servers**;
- **user-delivery servers**;
- **connections**, each pairing one user-delivery server with one webview server. A connection carries two API keys and an optional webhook URL.

The handlers create, list, look up, rename and change the status of servers. They create and list connections, change a connection's webhook URL, and change a connection's status.

The handlers enforce three rules:

- A server name is unique within its kind.
- A (user-delivery server, webview server) pair is connected at most once.
- A connection may become active only while both of its servers are active.

When a server becomes inactive, its handler walks the connections that refer to it and writes "inactive" over each active one. This is the cascade.

A second, small part is the in-process job queue: a slice of jobs with Enqueue, Dequeue and IsEmpty, drained in FIFO order.

Layout:

- `common.dfy` (`Common`): ids, statuses, server kinds, the error variants and the result type the handlers return.
- `query.dfy` (`Query`): `strconv.Atoi`, the `limit`/`page` defaults and the skip/limit window of a `Find`.
- `records.dfy` (`Records`): the documents, a collection as a table (records by `_id` plus natural order), and the cascade on values.
- `database.dfy` (`Database`): the store object `Store` with one field per collection and the id allocator. Also the invariants I1, I2 and "an active connection joins two active servers", with one lemma per write showing that the write keeps them.
- `server_controller.dfy` (`ServerController`): the webview-server and user-delivery-server handlers. The two Go files are the same code over two collections. The model writes each handler once, over a `ServerKind`.
- `connection_controller.dfy` (`ConnectionController`): the connection handlers.
- `queue.dfy` (`JobQueue`): the queue class, its drain loop and a FIFO lemma over any sequence of calls.

Each handler is a module-level method that takes the store as `s: Store`. Every handler that can fail returns a `Result`. The server listing cannot fail and returns its page directly. A handler's `ensures` clauses give:

- every error case, in the order the handler checks them;
- the reply;
- the complete new state of the store;
- that the invariants hold afterwards.

An update that finds the value already in effect returns `Ok(Unchanged)` and writes nothing.

`ObjectIDFromHex` is not modelled as a hex parser. A path id arrives as an `Option<ObjectId>`, which is its parse result. Where the Go code discards the parse error (`objId, _ :=`), a malformed id becomes the nil id, which no document has. `primitive.NewObjectID()` is a counter in the store that never hands out the nil id.

Three behaviours of the code worth noting:

- The list keyword is a MongoDB `$regex` with the `i` option, not a substring test. It is a parameter `nameMatches`.
- A webhook URL is checked with `url.ParseRequestURI`, which also accepts non-absolute request URIs such as `/hook`. The model only fixes that the empty string fails. The rest of the grammar is a parameter `uriGrammar`.
- CreateConnection checks that both servers exist before it checks the webhook URL. UpdateConnectionWebhookUrl rejects a malformed path id before it looks the connection up.

## Model

| member | source | states |
|---|---|---|
| Query.Atoi | controllers/webview_server_controller.go:84-96 | Text is accepted only when, after an optional sign, it is a non-empty run of digits; so "1a" and "+" are rejected. The value lies in the 64-bit range. A negative value needs a leading '-', and a leading '-' never gives a positive value. |
| Query.AtoiSound | controllers/webview_server_controller.go:84-96 | The converse of AtoiDecimal: whatever Atoi accepts is an optional sign, then possibly zeros, then the decimal spelling of the value's magnitude. |
| Query.AtoiDecimal | controllers/webview_server_controller.go:84-96 | Every int64 written in decimal, with or without a sign, parses back to itself. |
| Query.ParseLimit | controllers/webview_server_controller.go:81-89 | The limit is positive and within int64. It is 10 unless the parameter parses to that value. |
| Query.ParsePage | controllers/webview_server_controller.go:81-96 | The page is non-negative and within int64. It is 0 unless the parameter parses to that value. |
| Query.ParsePagingOverrides | controllers/webview_server_controller.go:81-96 | A positive decimal overrides the default limit and page. A negative one, zero or unparsable text leaves the defaults. |
| Query.Window | controllers/webview_server_controller.go:108 | SetSkip/SetLimit return at most `limit` records, the ones starting at position `skip` of the matches, in order. |
| Query.PagesTile | controllers/webview_server_controller.go:108 | Pages 0..n-1 laid end to end are exactly the first n*limit matches: nothing is skipped or repeated. |
| Query.OnItsPage | controllers/webview_server_controller.go:108 | Match i appears on page i / limit, at position i % limit. |
| Query.WrapInt64 | controllers/webview_server_controller.go:108 | Go int arithmetic: the result lies in the int64 range and agrees with the true value modulo 2^64. |
| Query.SkipAsWritten | controllers/webview_server_controller.go:108 | `int64(page*limit)` as written: always within int64, and equal to page*limit whenever that product fits. |
| Query.SkipWrapsNegative | controllers/webview_server_controller.go:108 | With page 2^62 and limit 2, the skip as computed wraps to -2^63, which the database refuses, so the request fails. |
| Query.PastTheEndIsEmpty | controllers/webview_server_controller.go:108 | With the intended skip, a page past the last match is empty and any other page starts at match page*limit. |
| Query.SkipWrapsToFirstPage | controllers/webview_server_controller.go:108 | With page 2^61 and limit 8, the skip as computed wraps to 0, so the reply is page 0 instead of the empty page. |
| Records.Insert | controllers/webview_server_controller.go:64 | InsertOne adds the document under a fresh id, keeps every other document, and appends it to the natural order. |
| Records.Put | controllers/webview_server_controller.go:191-192 | UpdateOne `$set` replaces one document in place. Every other document and the order are unchanged. |
| Records.Where | controllers/webview_server_controller.go:98-108 | A filtered Find returns exactly the rows satisfying the filter, at most as many as there are rows, and never yields duplicates. |
| Records.WhereConcat | controllers/webview_server_controller.go:98-108 | Filtering commutes with concatenation, so the rows that pass keep their relative order. |
| Records.Demote | controllers/webview_server_controller.go:255-257 | A connection referring to the server ends inactive. Any other connection is unchanged. Only the status field can change. |
| Records.Deactivated | controllers/webview_server_controller.go:241-262 | After the cascade every referring connection is inactive. Non-referring and already-inactive ones are untouched. No field other than the status changes. |
| Database.InsertServerKeeps | controllers/webview_server_controller.go:50-62 | Creating a server under a fresh id with an unused name keeps all invariants (unique names included). |
| Database.RenameServerKeeps | controllers/webview_server_controller.go:176-192 | Renaming to a name no server of the kind holds keeps all invariants. |
| Database.ActivateServerKeeps | controllers/webview_server_controller.go:231-239 | Activating a server keeps all invariants. |
| Database.DeactivateServerKeeps | controllers/webview_server_controller.go:235-262 | Deactivating a server keeps all invariants, including "an active connection joins two active servers", provided the cascade runs. |
| Database.InsertConnectionKeeps | controllers/connection_controller.go:56-98 | An inactive connection between two existing servers, for an unconnected pair, keeps all invariants (I1 included). |
| Database.SetWebHookUrlKeeps | controllers/connection_controller.go:252-257 | Changing only the webhook URL keeps all invariants. |
| Database.SetConnectionStatusKeeps | controllers/connection_controller.go:300-326 | A status write keeps all invariants when activation happens only while both servers are active. |
| Database.NameInUse | controllers/webview_server_controller.go:50-53 | `FindOne({"name": name})` succeeds iff some server of the collection has exactly that name. Same check at line 186. |
| Database.PairInUse | controllers/connection_controller.go:70-75 | The pair count is positive iff some connection joins exactly that user-delivery server and that webview server. |
| Database.Store.NewObjectId | controllers/webview_server_controller.go:57 | Hands out the next unused id and changes nothing else. |
| ServerController.Matching | controllers/webview_server_controller.go:98-106 | A server is listed iff it is in the collection, its name matches a non-empty keyword, and its status equals an "active"/"inactive" filter. |
| ServerController.CreateServer | controllers/webview_server_controller.go:38-70 | Empty name: invalid body. Name in use: conflict. Otherwise a fresh non-nil id holding an inactive server is inserted. Nothing changes on error; invariants hold. Same code: user_delivery_server_controller.go:40-72. |
| ServerController.ListServers | controllers/webview_server_controller.go:72-137 | Limit and page come from ParseLimit/ParsePage. The list is that page of the filtered servers. The total counts the same filter regardless of the page. Every listed server matches. |
| ServerController.GetServerDetail | controllers/webview_server_controller.go:139-153 | Found iff the parsed id is in the collection; the reply is that document. A malformed or unknown id gives not-found. |
| ServerController.RenameServer | controllers/webview_server_controller.go:155-207 | Checks in order: bad id, empty name, unknown id, same name (success, no write), name held by another server (conflict). Otherwise only the name is rewritten. Invariants hold. |
| ServerController.ChangeServerStatus | controllers/webview_server_controller.go:209-275 | Checks in order: unknown id, invalid status, same status (no write). Otherwise the status is written, and on "inactive" the connections become the cascade's result. After "inactive" no referring connection is active. |
| ServerController.DeactivateConnections | controllers/webview_server_controller.go:241-262 | The loop over the referring connections leaves exactly the cascade's collection and touches no other collection. Same code: user_delivery_server_controller.go:243-265. |
| ServerController.CascadeStep | controllers/webview_server_controller.go:248-261 | One turn of the loop extends the demoted prefix by the next referring connection. |
| ServerController.CascadeComplete | controllers/webview_server_controller.go:241-262 | Once every referring connection is visited, the collection equals the cascade's. |
| Common.ParseStatus | controllers/webview_server_controller.go:227-229 | Only "active" and "inactive" are statuses; "active" alone gives Active. The same test filters the lists (line 104; connection_controller.go:153, 296). |
| ConnectionController.ParsesAsRequestUri | controllers/connection_controller.go:64-68 | The empty URL never parses as a request URI. The same call guards the update at line 248. |
| ConnectionController.InfoOf | controllers/connection_controller.go:173-186 | Since no server has the nil id, the projection is empty iff the lookup fails. Otherwise it carries the looked-up id and that server's name. |
| ConnectionController.Describe | controllers/connection_controller.go:188-199 | An entry copies the connection's id, status, keys and URL. Each server projection is empty iff that server is missing. |
| ConnectionController.DescribeResolves | controllers/connection_controller.go:173-199 | In a consistent store the empty projection never appears: both servers of a listed connection resolve to their id and current name. |
| ConnectionController.Matching | controllers/connection_controller.go:145-155 | Listed iff the connection belongs to the user-delivery server, has the webview id when one parses, and has the exact "active"/"inactive" status when given. |
| ConnectionController.ActivationBlocker | controllers/connection_controller.go:300-319 | No blocker iff both servers exist and are active. A blocker is always a not-found or a not-active error. Which one is given by the function's definition, which runs the checks in the handler's order. |
| ConnectionController.CreateConnection | controllers/connection_controller.go:38-106 | Checks in order: missing webview id, bad path id, unknown user-delivery server, unknown webview server, non-empty unparsable URL, pair already connected. Otherwise an inactive connection with the two keys, both ids and the URL is inserted under a fresh id. Invariants hold. |
| ConnectionController.ListConnections | controllers/connection_controller.go:108-224 | Bad path id: invalid id. Unknown server: not found. Otherwise limit and page as parsed, the total of the filter, and the page of matches with both servers resolved. |
| ConnectionController.DescribeAll | controllers/connection_controller.go:163-202 | The lookup loop yields one entry per connection of the page, in order, each with both servers resolved. |
| ConnectionController.UpdateWebHookUrl | controllers/connection_controller.go:226-272 | Checks in order: bad id, unknown id, unparsable URL (the empty URL always fails), same URL (no write). Otherwise only the webhook field changes. Invariants hold. |
| ConnectionController.ChangeConnectionStatus | controllers/connection_controller.go:274-341 | Checks in order: bad id, unknown id, invalid status, then for "active" the activation guard before the same-status no-op. Otherwise only the status changes; an activated connection joins two active servers. |
| JobQueue.Queue.constructor | queue/queue.go:41 | A new queue holds no jobs. |
| JobQueue.Queue.Enqueue | queue/queue.go:17-19 | The job is appended at the back. |
| JobQueue.Queue.Dequeue | queue/queue.go:21-28 | Empty queue: the zero job, and the queue stays empty. Otherwise the first job, and exactly that job is removed. |
| JobQueue.Queue.IsEmpty | queue/queue.go:30-32 | True iff no job is queued. |
| JobQueue.Drain | queue/queue.go:49-52 | The drain loop hands on every queued job in queue order and leaves the queue empty. |
| JobQueue.RunQueue | queue/queue.go:40-56 | Jobs 1, 2 and 3 with their three messages are dispatched in the order they were enqueued. |
| JobQueue.Fifo | queue/queue.go:17-28 | After any run of Enqueue/Dequeue calls, the jobs served then the jobs queued are the initial jobs then the enqueued ones: none is lost, duplicated or overtaken. |

## Left out

- MongoDB driver failures and the context timeout are not modelled. Every collection call succeeds. This includes the errors the handlers discard with `count, _ :=`.
- Races between concurrent requests are not modelled. Each handler is one atomic step, so the check-then-write races on names, pairs and activation cannot occur.
- A failure in the middle of the cascade is not modelled, so the cascade never leaves a partly demoted collection.
- Timestamps (`createdAt`, `updatedAt`) are not modelled.
- Echo plumbing is not modelled: request binding, JSON errors, HTTP status codes, the response envelope, routes, `main.go` and the bearer check in `middlewares/auth.go`.
- A validation failure is the single error `InvalidBody`. The body's `validate:"required"` tags are the only rules checked.
- `helpers.GenerateAPIKey` is not part of this model. The two keys are parameters of `CreateConnection`, and the panic on a randomness failure is not modelled.
- `ConnectionController.ParsesAsRequestUri`: the grammar of `url.ParseRequestURI` beyond "the empty string fails" is the parameter `uriGrammar`.
- `ServerController.ListServers`, `ConnectionController.ListConnections`: the page is taken at the intended skip page*limit, not at the wrapped `int64(page*limit)`. When the product reaches 2^63, the code answers a wrong page or, for a negative wrapped skip, fails. The model answers the intended page. `Query.SkipAsWritten`, `Query.SkipWrapsToFirstPage` and `Query.SkipWrapsNegative` carry the behaviour as written (see Findings).
- `ServerController.Selected`: MongoDB's case-insensitive `$regex` is the parameter `nameMatches`.
- Hex parsing of path and query ids (`ObjectIDFromHex`) is not modelled. Each handler receives the parse result.
- The model assumes `Find` returns documents in insertion order. MongoDB does not promise a natural order.
- The server returned after an update is the record the model wrote. The re-read `FindOne` after `UpdateOne` is not modelled separately.
- `grpc/grpc.go` is not part of this model: it is a network server and client.
- `sendEmail` and the goroutines, sleeps and printing of `RunQueue` are not modelled. `RunQueue` returns the jobs in the order it hands them on.
- `JobQueue.Fifo` is proved over a value-level replay of the calls, not over one `Queue` object.

## Findings

| source | as written | input that shows it | evidently intended | confidence | as-written member | corrected member |
|---|---|---|---|---|---|---|
| controllers/webview_server_controller.go:108 | The skip is `int64(page*limit)`, a product of two Go ints that wraps modulo 2^64. The same expression is in connection_controller.go:157 and user_delivery_server_controller.go:110. | `page=2305843009213693952` (2^61), `limit=8` | A page past the last match is empty. Page n holds matches n*limit up to (n+1)*limit. | not executed; the wrap-around follows from Go's int64 semantics | Query.SkipWrapsToFirstPage | Query.PagesTile |
| controllers/webview_server_controller.go:108 | The same product can wrap to a negative skip, which the database rejects. The handler then answers with a server error. | `page=4611686018427387904` (2^62), `limit=2` | Any page request succeeds. A page past the last match is empty. | not executed; the wrap-around follows from Go's int64 semantics | Query.SkipWrapsNegative | Query.PastTheEndIsEmpty |
