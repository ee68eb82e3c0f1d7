# rmon server registry — a Dafny model

rmon is a small Flask application for registering Redis servers. Its REST layer works in three steps:

1. `RestView.dispatch_request` picks the handler method for the HTTP verb and wraps it in the view's `method_decorators`.
2. It turns a raised `RestException` into a `{ok: false, message}` JSON error.
3. It unpacks what the handler returned and collapses a field-error dict into one message.

The detail view guards its handlers with `ObjectMustExist(Server)`. It answers 404 when `object_id` names no stored server. Otherwise it puts the server into the request slot `g.instance`.

`ServerSchema` loads a JSON body into column values and validates each field: name length, description length, the dotted-quad host pattern and the port range. Its schema-level rule `validate_schema` fills in the default port and keeps server names unique. `create_or_update` then builds a new `Server` or sets the loaded keys on the existing one.

The five handlers of `ServerList` and `ServerDetail` read and change the stored servers.

The model has six modules, one file each:

- `common.dfy` (`Common`): options, results, JSON documents, and the Python exceptions that escape to the framework (`Fault`). It also holds small sequence and set helpers, including the ascending listing of a set of ids.
- `rest.dfy` (`Rest`): `RestException` and `handler_error`. It also holds handler and decorator selection, the decorator-wrapping loop (`Prepare`), the static `unpack` and the normalisation loop (`Normalise`).
- `decorators.dfy` (`Decorators`): `ObjectMustExist`. It is generic in the database state, the object type and the call arguments. The guard is a method (`Wrapper`) whose slot output is proved equal to the function `Wrapped`. `Wrapper` is the generic statement of the guard: its handler is a function value, so it cannot run a handler that changes the session. `ServerViews.Invoke` therefore runs the same two checks on the session itself, and is proved equal to `ServerSpec.Run`, each of whose guards is `Decorators.Wrapped` (`ServerSpec.RunIsGuarded`).
- `models.dfy` (`Models`): the fields and their validators, loading (`LoadField`, `LoadFields`, `Load`) and `validate_schema`, in corrected form and as written. It also holds the dump, the `Server` class with `setattr`, `ping` and `get_metrics`, and the `create_or_update` loop (`CreateOrUpdate`).
- `server_spec.dfy` (`ServerSpec`): the API as a pure state machine over the stored rows. It covers the routed views, the handlers, the guarded handler chain (`Run`) and one request (`Step`). It proves the answers of each verb and that names stay unique over any sequence of requests. `Step` and `Dispatch` are built on the corrected `Rest.Normalised` and `Models.Load`, not on the forms as written. As written, the program answers every plain handler result with an AttributeError (see the findings). So rows such as `ServerSpec.ListAnswer` and `ServerSpec.CreateAnswer` describe the intended program; `Rest.AsWrittenAgreesOnlyOnExceptions` and the `Models` as-written lemmas say where the program as written differs.
- `server_views.dfy` (`ServerViews`): the database session as a class `Store`, which holds the session's `Server` objects by id. The handlers and the dispatch are methods on it, each proved to leave the rows and return the outcome that `ServerSpec` gives.

The I/O of the source becomes parameters:

- The Redis probe is the parameter `reachable`. The answer to `INFO` is `info`.
- The request is a `Request` value: view, verb, URL keyword arguments and JSON body.
- A new row's id follows the table's rowid rule: one more than the largest id, or 1 for an empty table.

## Model

| member | source | states |
|---|---|---|
| Rest.HandlerError | rmon/common/rest.py:34-45 | the response has the exception's code as its status, the JSON line of `{ok: false, message: e.message}` as its body, and exactly one Content-Type, `application/json; charset=utf-8` |
| Rest.SetHeader | rmon/common/rest.py:99 | after `headers[name] = value`, the header has exactly one value, the new one, and every header of another name is kept |
| Rest.WithoutRemovesAll | rmon/common/rest.py:99 | removing a header name leaves no value under it, and doing it twice is the same as once |
| Rest.JsonResponse | rmon/common/rest.py:92-99 | a built response has the given status and JSON body, the JSON Content-Type as its only Content-Type, and the handler's other headers after extend |
| Rest.Prepare | rmon/common/rest.py:52-64 | the loop that applies the decorators builds exactly the chain `Prepared` describes, or fails with the dispatch assertion when no handler is found |
| Rest.WrapLayers | rmon/common/rest.py:63-64 | the wrapped chain calls the selected handler at its centre, and its layers run in reverse list order, so the last decorator listed is outermost |
| Rest.ChainDetermined | rmon/common/rest.py:63-64 | a chain is determined by its layers and its handler, so the two facts of WrapLayers describe it completely |
| Rest.SelectIgnoresCase | rmon/common/rest.py:52 | two verbs with the same lower-case name select the same handler, the table's entry for that name |
| Rest.HeadFallsBackToGet | rmon/common/rest.py:52-59 | HEAD on a view without `head` runs `get`, with the decorators configured for `head` (empty when none) |
| Rest.Unpack | rmon/common/rest.py:103-116 | a bare value gives status 200 and no headers; a pair gives its code and no headers; a triple gives its code and headers; every other tuple fails, and only those |
| Rest.Normalise | rmon/common/rest.py:66-101 | the post-call part of dispatch, including the loop that overwrites `message` once per key, produces exactly `Normalised` of the handler's outcome |
| Rest.ResponsesPassThrough | rmon/common/rest.py:66-73 | a Response the handler returned comes back unchanged, and so does the one `handler_error` built from a raised RestException, with the exception's code and message |
| Rest.BuiltResponsesAreJson | rmon/common/rest.py:42-99 | every response dispatch builds itself has a JSON-line body and the JSON Content-Type as its only Content-Type |
| Rest.ErrorDictCollapses | rmon/common/rest.py:82-101 | a non-empty dict body with status 400 or more is answered with the same status and `{ok: false, message}`. The message is that of the last key: the first element of a non-empty list, otherwise the value. The handler's other headers are kept |
| Rest.FieldErrorsCollapseToLastField | rmon/common/rest.py:82-101 | a schema error dict (field to list of messages) is answered with the first message of its last field |
| Rest.EmptyErrorDictFails | rmon/common/rest.py:83-89 | an empty error dict with status 400 or more leaves `message` unbound, which escapes as UnboundLocalError |
| Rest.SuccessBodyPassesThrough | rmon/common/rest.py:82-116 | below 400, or with a body that is not a dict, the answer is the body's JSON with the handler's status (200 for a bare value) |
| Rest.AsWrittenLosesFieldErrors | rmon/common/rest.py:76-116 | as written, the `({'name': [m]}, 400)` result of a rejected POST ends in AttributeError. Corrected, it is answered 400 with message `m` |
| Rest.AsWrittenAgreesOnlyOnExceptions | rmon/common/rest.py:66-76 | as written, every plain handler result fails with AttributeError on `unpack`; on raised exceptions, faults and returned Responses the two dispatches agree |
| Decorators.Wrapper | rmon/common/decorators.py:24-37 | the guard's database, slot and outcome are exactly those of `Wrapped`: untouched with the 404 on a failed check, otherwise the slot holds the object and the handler's result is passed on |
| Decorators.MissingIdIsNotFound | rmon/common/decorators.py:29-31 | without `object_id` the call raises 404 "object doesn't exist", and database and slot are unchanged whatever the handler |
| Decorators.UnknownIdIsNotFound | rmon/common/decorators.py:33-35 | an id the query does not find raises the same 404, and the result does not depend on the handler, which is never called. Id 0 is looked up like any other |
| Decorators.KnownIdCallsHandler | rmon/common/decorators.py:36-37 | a found object goes into the slot, and the result is the handler's call on the original arguments, whatever it ends with, a raised exception included |
| Decorators.ProceedsIffStored | rmon/common/decorators.py:29-36 | the guard lets the call through if and only if `object_id` is given and names a stored object, and only then writes the slot |
| Decorators.OnlyOwnClassIsQueried | rmon/common/decorators.py:12-33 | two queries that agree on the class fixed at construction give the same result |
| Models.LoadField | rmon/models.py:68-73 | a field that is absent is missing when required on create, and skipped otherwise. `null` is refused. A value of the wrong type is refused with the type message. A value that loads satisfies its field's validators |
| Models.AddError | rmon/models.py:91-94 | the message ends the list under its key; a key not yet reported is added last with that message alone, and only then does the list grow; entries under other keys, and every key, stay at their positions |
| Models.LoadFieldsData | rmon/models.py:68-73 | the loaded data hold exactly the fields that loaded, with the values they loaded to |
| Models.LoadFieldsErrors | rmon/models.py:68-73 | loading reports no error if and only if no field fails |
| Models.DottedQuadIsPattern | rmon/models.py:71 | the host test holds exactly for four groups of one to three digits joined by dots |
| Models.HostsAccepted | rmon/models.py:71 | "127.0.0.1" passes, and so does "999.999.999.999", since no octet range is checked |
| Models.TrailingNewlineAccepted | rmon/models.py:71 | the pattern's `$` lets one final newline through |
| Models.HostsRejected | rmon/models.py:71 | the three-group "127.0.0" and the four-digit "1234.0.0.1" are rejected |
| Models.JoinSplit | rmon/models.py:71 | joining the dot-separated pieces of a string gives the string back |
| Models.QuadSplit | rmon/models.py:71 | four digit groups joined by dots split back into the same four groups |
| Models.ParseIntRoundTrip | rmon/models.py:72 | parsing the decimal rendering of any integer gives the integer back |
| Models.ParseUnsigned | rmon/models.py:72 | a run of digits parses to its decimal value |
| Models.ParseNegative | rmon/models.py:72 | a minus sign followed by digits parses to the negated value |
| Models.FirstNamed | rmon/models.py:85 | the server `filter_by(name=...).first()` finds holds the name and has the lowest id among its holders; there is none if and only if no server holds the name |
| Models.FirstNamedIsLowest | rmon/models.py:85 | scanning the ids in ascending order finds that same lowest holder, or finds none exactly when no server holds the name |
| Models.LoadAcceptsIff | rmon/models.py:77-94 | a body is accepted if and only if no field fails and no server other than the one being updated holds its name |
| Models.CleanData | rmon/models.py:68-73 | a body with no failing field loads every field it gives, and only those, each as given (the port as its integer). On create these include the name and the host |
| Models.ValidateKeepsAdmissible | rmon/models.py:81-82 | the schema rule adds only the default port, which satisfies the port range |
| Models.PartialKeepsData | rmon/models.py:81-82 | in partial mode the corrected rule leaves the loaded data unchanged, and no default port is added |
| Models.AcceptedIsClean | rmon/models.py:77-94 | accepted data come from a clean load that passed the schema rule |
| Models.AcceptedAdmissible | rmon/models.py:68-82 | every value of accepted data satisfies its field's validators |
| Models.AcceptedFields | rmon/models.py:68-73 | accepted data carry every given field other than the port, as given, and no other; on create they include the name and the host |
| Models.AcceptedPort | rmon/models.py:72-82 | a create without a port gets 6379, an update without one leaves it out, and a given port is its integer value |
| Models.AcceptedNameFree | rmon/models.py:84-94 | accepted data never carry a name that another server holds |
| Models.DuplicateNameRejected | rmon/models.py:84-94 | a valid name held by another server (on create, by any server) is rejected, and the duplicate message is the last reported error, so it is the one the client sees |
| Models.RejectionsAreReported | rmon/models.py:77-94 | a rejection names at least one key, and every key it names has a message |
| Models.OwnNamePasses | rmon/models.py:87-94 | on update, a name only the instance itself holds passes the rule |
| Models.ValidNameLoads | rmon/models.py:68 | a given name of 2 to 64 characters does not fail and is in the loaded data |
| Models.OwnNameUpdateLoads | rmon/models.py:77-94 | a clean partial update that keeps its own name and gives no port loads without errors and passes the rule, as written and corrected |
| Models.PortResetOnPartialUpdate | rmon/models.py:81-82 | as written, an update that gives no port loads the port as 6379, so saving resets it; corrected, the port stays out of the data |
| Models.UpdateWithoutNameRaises | rmon/models.py:85 | as written, a partial update without a name ends in KeyError; corrected, it is accepted or rejected by its field errors alone |
| Models.InvalidNameOnCreateRaises | rmon/models.py:85 | as written, a create whose name fails its own validation ends in KeyError; corrected, the client gets the field errors |
| Models.NonObjectBodyRaises | rmon/models.py:81 | as written, a body that is not a JSON object ends in TypeError inside the rule; corrected, it is the schema's "Invalid input type." error |
| Models.AsWrittenAgreesOnCreate | rmon/models.py:77-94 | on a create whose name loaded, the rule as written and corrected give the same result |
| Models.DumpShowsColumns | rmon/models.py:67-73 | the dump shows the id and each column under its field's name, null for a NULL column |
| Models.ErrorsJson | rmon/views/server.py:24-25 | the returned errors dict lists every reported key in order, each with its messages |
| Models.Apply | rmon/models.py:108-109 | after setting the loaded keys, those fields have the loaded values and every other field keeps its value |
| Models.Server.SetAttr | rmon/models.py:109 | `setattr` changes the one column and nothing else |
| Models.Server.Ping | rmon/models.py:47-51 | the ping is the probe on the server's host column |
| Models.Server.GetMetrics | rmon/models.py:54-60 | the metrics call is `Metrics` on the server's host column |
| Models.Probe | rmon/models.py:47-51 | the ping succeeds if and only if the server answers. Otherwise it raises 400 "cannot connect to redis server " followed by the host |
| Models.Metrics | rmon/models.py:54-60 | the metrics are the server's INFO answer when there is one. Otherwise the same 400 connection error is raised |
| Models.CreateOrUpdate | rmon/models.py:96-110 | without an instance, a new unsaved server holding exactly the loaded keys; with one, the same object, its id unchanged, its columns those of `Apply` |
| Common.Lookup | rmon/models.py:68-73 | a key is found if and only if some entry has it, and the value found is that entry's |
| Common.AscendingIncreases | rmon/views/server.py:15 | the listing order of stored ids is strictly increasing |
| Common.Ascending | rmon/views/server.py:15 | the listing of stored ids has each id once and no other |
| ServerSpec.NextId | rmon/models.py:21 | a new row's id is not in use and is larger than every stored id; it is 1 in an empty table |
| ServerSpec.Inserted | rmon/models.py:25 | an inserted row keeps its given columns, and a missing port takes the column default 6379 |
| ServerSpec.InsertAddsOne | rmon/models.py:33-35 | saving a new server adds exactly one row under a fresh id and changes no other |
| ServerSpec.DumpAllShows | rmon/views/server.py:17 | the k-th item of the dumped list is the dump of the k-th id |
| ServerSpec.ListShowsEveryServer | rmon/views/server.py:12-17 | the list holds one item per stored server; each item is the dump of a stored server, and each stored server's dump is in the list |
| ServerSpec.RunIsGuarded | rmon/views/server.py:35 | each layer of the detail chain is the existence guard applied to the rest of the chain |
| ServerSpec.StepRunsChain | rmon/common/rest.py:66-101 | a request whose handler was found is the run of its decorated handler, normalised |
| ServerSpec.StepFailsUnhandled | rmon/common/rest.py:56 | a request with no handler changes nothing and escapes with the dispatch assertion |
| ServerSpec.DetailIsGuarded | rmon/views/server.py:35 | every verb of the detail view runs behind exactly one `ObjectMustExist(Server)` |
| ServerSpec.UnknownServerIsNotFound | rmon/views/server.py:35 | every detail verb on an id with no stored server is answered 404 "object doesn't exist", and nothing changes |
| ServerSpec.UnservedVerbFails | rmon/common/rest.py:52-56 | a verb the view does not serve fails the assertion "Uninplemented method" + verb, and nothing changes |
| ServerSpec.GuardPasses | rmon/views/server.py:35-61 | a detail request for a stored server runs its handler with that server in the slot |
| ServerSpec.ListRoute | rmon/views/server.py:12-28 | a list request runs its handler with no decorator and an empty slot |
| ServerSpec.HeadIsNoHandler | rmon/common/rest.py:52-54 | HEAD is no handler name of either view, so it always takes the `get` fallback |
| ServerSpec.ListAnswer | rmon/views/server.py:12-17 | GET or HEAD on the list answers 200 with the dump of every stored server and changes nothing |
| ServerSpec.ShowAnswer | rmon/views/server.py:37-41 | GET or HEAD on a stored server answers 200 with its dump and changes nothing |
| ServerSpec.RejectionAnswer | rmon/views/server.py:24-25 | a rejection is answered 400 with the first message of the last reported key |
| ServerSpec.CreateAnswer | rmon/views/server.py:19-28 | a rejected POST changes nothing and does not consult the probe. An accepted one that the server does not answer changes nothing and gets the connection error. Otherwise the server is inserted under a fresh id and the answer is 201 `{ok: true}` |
| ServerSpec.UpdateAnswer | rmon/views/server.py:43-55 | PUT on a stored server either answers the errors and changes nothing, or sets the loaded keys on that row alone and answers 200 `{ok: true}` |
| ServerSpec.RemoveAnswer | rmon/views/server.py:57-61 | DELETE removes the stored server and no other row, and answers 200 `{ok: true}` |
| ServerSpec.UpdateIsVisible | rmon/views/server.py:37-55 | after an accepted PUT, GET of the same server shows every updated field with its new value and every other field as before |
| ServerSpec.DuplicateCreateRefused | rmon/views/server.py:23-25 | creating a server under a name a stored server has is answered 400 "Redis server already exists", and nothing is stored |
| ServerSpec.DuplicateRenameRefused | rmon/views/server.py:47-52 | renaming a server to the name of another one is answered with the same 400, and nothing changes |
| ServerSpec.OwnNameKept | rmon/views/server.py:47-55 | a clean PUT that repeats the server's own name passes the uniqueness rule and answers 200; the stored name stays, and when the body gives no port the stored port is kept (present exactly when it was, with the same value) |
| ServerSpec.RenamePreservesUnique | rmon/models.py:22 | writing a row whose name no other row holds keeps names unique |
| ServerSpec.CreatePreservesUnique | rmon/views/server.py:19-28 | POST never makes two stored servers share a name |
| ServerSpec.UpdatePreservesUnique | rmon/views/server.py:43-55 | PUT never makes two stored servers share a name |
| ServerSpec.PerformPreservesUnique | rmon/views/server.py:12-61 | no handler makes two stored servers share a name |
| ServerSpec.RunPreservesUnique | rmon/common/decorators.py:24-37 | a guarded handler keeps names unique, since the guard hands it the current stored server |
| ServerSpec.StepPreservesUnique | rmon/common/rest.py:47-101 | whatever the request, and whether or not the server answers the probe, names stay unique |
| ServerSpec.RunAllPreservesUnique | rmon/models.py:22 | after any sequence of requests from a database with unique names (an empty one, say), no two stored servers share a name |
| ServerViews.Store.Insert | rmon/models.py:33-35 | adding a new server to the session gives it the fresh id and the column defaults. The rows become `ServerSpec.Insert` of the old ones, and every object stays under its own id |
| ServerViews.Store.Save | rmon/models.py:33-35 | saving a new server inserts it; saving one the session holds leaves the rows as they stand |
| ServerViews.Store.Delete | rmon/models.py:37-39 | deleting removes exactly that server's row |
| ServerViews.ListGet | rmon/views/server.py:12-17 | the list handler returns the dump of every stored server |
| ServerViews.ListPost | rmon/views/server.py:19-28 | the POST handler leaves the rows and returns the outcome `ServerSpec.Create` gives |
| ServerViews.DetailGet | rmon/views/server.py:37-41 | the GET handler returns the dump of the server in the slot |
| ServerViews.DetailPut | rmon/views/server.py:43-55 | the PUT handler, setting attributes on the session's object, leaves the rows and returns the outcome `ServerSpec.Update` gives |
| ServerViews.DetailDelete | rmon/views/server.py:57-61 | the DELETE handler leaves the rows and returns the outcome `ServerSpec.Remove` gives |
| ServerViews.CallList | rmon/views/server.py:12-28 | a list handler on the session does what `ServerSpec.Perform` says |
| ServerViews.CallDetail | rmon/views/server.py:37-61 | a detail handler on the session's object does what `ServerSpec.Perform` says |
| ServerViews.Call | rmon/views/server.py:12-61 | any handler on the session does what `ServerSpec.Perform` says; a detail handler with an empty slot fails on `g.instance` |
| ServerViews.Invoke | rmon/common/decorators.py:24-37 | the guarded chain run on the session does what `ServerSpec.Run` says |
| ServerViews.Respond | rmon/common/rest.py:66-101 | the call and the normalisation of its result do what `ServerSpec.Run` followed by `Normalised` says |
| ServerViews.Dispatch | rmon/common/rest.py:47-101 | one request on the session leaves the rows and gives the response that `ServerSpec.Step` gives |

## Left out

**Framework and I/O**
- Flask routing, `MethodView`'s own 405 for unknown verbs, blueprints and the app setup. A request reaches a view with its verb, its URL keyword arguments (`object_id` as an integer) and its JSON body.
- `request` and `g` are parameters and results, not globals. No handler writes `g.instance` itself.
- JSON text serialisation by `flask.json.dumps` is left out. A body is a JSON value followed by a newline marker (`JsonLine`).
- The Content-Length header Werkzeug's `make_response` adds is left out. Headers are modelled as Content-Type and the ones a handler returns.
- `print(servers)` in the list handler is left out.
- Redis I/O is left out: `StrictRedis.ping` is the boolean `reachable`, and `info` is the optional document `info`.

**Persistence**
- SQLAlchemy persistence is modelled only as the session's identity map over one table. An id is assigned as max+1, the rowid rule.
- Database errors are left out, among them the `IntegrityError` that `unique=True` can raise.
- Concurrency and transactions are left out.
- Python's dict iteration order and the table's scan order are fixed: field errors in declaration order of the fields, stored servers in ascending id order.

**Schema and columns**
- The timestamps `update_at` and `created_at` are left out: they depend on the wall clock. Their `onupdate` default is also evaluated once, at import.
- The DateTime dump is left out.
- Column widths (`String(64)`, `String(15)`) are not enforced by the model, just as SQLite does not enforce them.
- Models.ToInteger: `fields.Integer` accepts integers, booleans and strings of an optional sign and ASCII digits. It does not model the whitespace, underscores and non-ASCII digits Python's `int()` also accepts, or floats, which it truncates.
- Models.MatchesHost: `\d` is read as an ASCII digit. Python's `re` also matches other Unicode decimal digits.
- Common.Lookup: a key given twice in a JSON object is looked up at its first occurrence. Python's JSON decoder keeps the last.
- Marshmallow 2's own behaviour is assumed, not modelled from source. It ignores dump-only and unknown keys on load, drops a failing field from the data with one message, and skips missing fields in partial mode. It runs the schema validator even when a field failed, and `post_load` only when nothing failed. A body that is not an object gives `"_schema": ["Invalid input type."]` and no data.

**Out of scope**
- `ServerMetrics.get` is an unrouted stub, and `rmon/views/index.py` only renders a template. Neither is part of this model. The `get_metrics` error contract is modelled (`Models.Server.GetMetrics`).
- Rest.Normalised: the success branch sends the body as JSON with the handler's status and headers. The source has no such branch (see the findings).

## Findings

| source | as written | input that shows it | evidently intended | confidence | as-written member | corrected member |
|---|---|---|---|---|---|---|
| rmon/common/rest.py:76-116 | `unpack` is defined inside `dispatch_request`, after its last `return`, so `RestView.unpack` raises AttributeError. Even with it at class level, a status below 400 falls off the end and returns None | a POST `{"name": "redis"}` without a host: the handler returns `({'host': ['Missing data for required field.']}, 400)` | a static helper that unpacks the result, a 400 `{ok: false, message}` for error dicts, and the body as JSON otherwise | high, not executed | Rest.NormalisedAsWritten, Rest.AsWrittenLosesFieldErrors, Rest.AsWrittenAgreesOnlyOnExceptions | Rest.Normalised, Rest.Normalise, Rest.ErrorDictCollapses, Rest.SuccessBodyPassesThrough |
| rmon/models.py:81-82 | the default port 6379 is written into the loaded data in partial mode too | PUT `{"name": "<its own name>"}` on a server stored with port 7000 sets its port to 6379 | the default only for a new server; an update without a port keeps the stored one | high, not executed | Models.LoadAsWritten, Models.PortResetOnPartialUpdate | Models.Load, Models.PartialKeepsData, Models.AcceptedPort, ServerSpec.OwnNameKept |
| rmon/models.py:81-85 | `data['name']` raises KeyError when the name is not in the loaded data, and `'port' not in data` raises TypeError when the body is not an object | PUT `{"description": "x"}`; POST `{"name": "a", "host": "127.0.0.1"}`; POST `[1]` | the uniqueness rule is skipped when there is no name to check, and the field or schema errors are answered 400 | high, not executed | Models.ValidateSchemaAsWritten, Models.UpdateWithoutNameRaises, Models.InvalidNameOnCreateRaises, Models.NonObjectBodyRaises | Models.ValidateSchema, Models.Load, Models.LoadAcceptsIff, Models.RejectionsAreReported |

The collapse loop at rmon/common/rest.py:83-87 overwrites `message` once per key, so the last key wins. The model keeps that reading. A single-field error dict gives the same message either way.
