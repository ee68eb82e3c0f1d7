/**
 * The Redis server API as a state machine over the stored servers: the two views (the list
 * and one server), their handlers, and one request taken through dispatch — handler
 * selection, the existence guard, the handler, and normalisation of its result.
 *
 * The database is `Rows`; the connection probe's answer is the parameter `reachable`.
 */
module ServerSpec {
  import opened Common
  import opened Rest
  import opened Decorators
  import opened Models

  /** The routed views: `/servers` and `/servers/<int:object_id>`. */
  datatype View = ServerList | ServerDetail

  /** The handler methods the views define. */
  datatype Handler = ListGet | ListPost | DetailGet | DetailPut | DetailDelete

  /** The model class the detail view's guard is built with. */
  datatype ObjectClass = ServerModel

  type Decorator = ObjectMustExist<ObjectClass>

  /** A request: the view its URL matched, the verb, the URL's keyword arguments and the JSON body (null when none). */
  datatype Request = Request(view: View, verb: string, kwargs: Kwargs, body: Json)

  /** A stored server as the query hands it out: its id and its columns. */
  datatype Stored = Stored(id: int, row: Data)

  function Handlers(v: View): map<string, Handler> {
    match v
    case ServerList => map["get" := ListGet, "post" := ListPost]
    case ServerDetail => map["get" := DetailGet, "put" := DetailPut, "delete" := DetailDelete]
  }

  /** The list view inherits the empty sequence; the detail view guards every verb. */
  function DecoratorsOf(v: View): DecoratorConfig<Decorator> {
    match v
    case ServerList => Listed([])
    case ServerDetail => Listed([ObjectMustExist(ServerModel)])
  }

  /** `Server.query`: the stored servers by id. */
  function Query(c: ObjectClass, rows: Rows): map<int, Stored> {
    map id | id in rows :: Stored(id, rows[id])
  }

  /** `{'ok': True}` */
  const Ok := JDict([("ok", JBool(true))])

  // ---------------------------------------------------------------------------------------
  // Persistence
  // ---------------------------------------------------------------------------------------

  /** The id the table gives a new row: one more than the largest, 1 for an empty table. */
  function NextId(rows: Rows): (id: int)
    ensures id !in rows
    ensures forall k :: k in rows ==> k < id
    ensures rows == map[] ==> id == 1
  {
    if rows.Keys == {} then 1 else Max(rows.Keys) + 1
  }

  /** The columns an insert stores: the given ones, and the column default for a missing port. */
  function Inserted(columns: Data): (row: Data)
    ensures forall f :: f != Port ==> (f in row <==> f in columns) && (f in columns ==> row[f] == columns[f])
    ensures Port in row && row[Port] == if Port in columns then columns[Port] else VInt(DefaultPort)
  {
    if Port in columns then columns else columns[Port := VInt(DefaultPort)]
  }

  /** `server.save()` of a new server. */
  function Insert(rows: Rows, columns: Data): Rows {
    rows[NextId(rows) := Inserted(columns)]
  }

  // ---------------------------------------------------------------------------------------
  // Handlers
  // ---------------------------------------------------------------------------------------

  /** The dumps of the given stored ids, in order. */
  function DumpAll(ids: seq<int>, rows: Rows): (r: seq<Json>)
    requires forall k :: 0 <= k < |ids| ==> ids[k] in rows
    ensures |r| == |ids|
  {
    if ids == [] then [] else [Dump(ids[0], rows[ids[0]])] + DumpAll(ids[1..], rows)
  }

  /** The k-th item of the dump is the dump of the k-th id. */
  lemma {:induction false} DumpAllShows(ids: seq<int>, rows: Rows)
    requires forall k :: 0 <= k < |ids| ==> ids[k] in rows
    ensures forall k :: 0 <= k < |ids| ==> DumpAll(ids, rows)[k] == Dump(ids[k], rows[ids[k]])
  {
    if ids != [] {
      DumpAllShows(ids[1..], rows);
    }
  }

  /** ServerList.get: the dump of every stored server, in ascending id order. */
  function ListAll(rows: Rows): Json {
    var ids := Ascending(rows.Keys);
    JList(DumpAll(ids, rows))
  }

  /** The handler's answer to a body the schema rejected. */
  function Refused(errors: Errors): Outcome {
    Returned(Payload(Pair(JDict(ErrorsJson(errors)), 400)))
  }

  /** ServerList.post: load, answer the errors, or probe, save and answer 201. */
  function Create(rows: Rows, body: Json, reachable: bool): (Rows, Outcome) {
    match Load(body, false, None, rows)
    case Rejected(errors) => (rows, Refused(errors))
    case Accepted(data) =>
      match Probe(Column(data, Host), reachable)
      case Failure(e) => (rows, Raised(e))
      case Success(_) => (Insert(rows, data), Returned(Payload(Pair(Ok, 201))))
  }

  /** ServerDetail.get: the dump of the guarded server. */
  function Show(instance: Stored): Outcome {
    Returned(Payload(Bare(Dump(instance.id, instance.row))))
  }

  /** ServerDetail.put: a partial load against the guarded server, then the loaded keys set on it and saved. */
  function Update(rows: Rows, instance: Stored, body: Json): (Rows, Outcome) {
    match Load(body, true, Some(instance.id), rows)
    case Rejected(errors) => (rows, Refused(errors))
    case Accepted(data) => (rows[instance.id := Apply(instance.row, data)], Returned(Payload(Bare(Ok))))
  }

  /** ServerDetail.delete */
  function Remove(rows: Rows, instance: Stored): (Rows, Outcome) {
    (rows - {instance.id}, Returned(Payload(Bare(Ok))))
  }

  /** A handler's call on the current request; a detail handler reads the request slot. */
  function Perform(h: Handler, rows: Rows, slot: Option<Stored>, req: Request, reachable: bool): (Rows, Outcome) {
    match h
    case ListGet => (rows, Returned(Payload(Bare(ListAll(rows)))))
    case ListPost => Create(rows, req.body, reachable)
    case _ =>
      match slot
      case None => (rows, Faulted(AttributeMissing("instance")))
      case Some(instance) =>
        match h
        case DetailGet => (rows, Show(instance))
        case DetailPut => Update(rows, instance, req.body)
        case _ => Remove(rows, instance)
  }

  /** A decorated handler's call: each guard in turn, then the handler. */
  function Run(c: Chain<Decorator, Handler>, rows: Rows, slot: Option<Stored>, req: Request, reachable: bool): Guarded<Rows, Stored>
    decreases c
  {
    match c
    case Call(h) =>
      var (after, outcome) := Perform(h, rows, slot, req, reachable);
      Guarded(after, slot, outcome)
    case Wrapped(d, inner) =>
      match Resolve(d, Query, rows, req.kwargs)
      case Failure(e) => Guarded(rows, slot, Raised(e))
      case Success(obj) =>
        var g := Run(inner, rows, Some(obj), req, reachable);
        Guarded(g.state, Some(obj), g.outcome)
  }

  /** Each guard of the chain is the existence guard applied to the rest of the chain. */
  lemma RunIsGuarded(d: Decorator, inner: Chain<Decorator, Handler>, rows: Rows, slot: Option<Stored>, req: Request, reachable: bool)
    ensures Run(Wrapped(d, inner), rows, slot, req, reachable)
         == Decorators.Wrapped(d, Query, rows, slot,
                               (s: Rows, e: Stored, v: View, k: Kwargs) =>
                                 var g := Run(inner, s, Some(e), req, reachable); (g.state, g.outcome),
                               req.view, req.kwargs)
  {
  }

  /** One request: the database afterwards and the response, or the exception that escapes to the framework. */
  function Step(rows: Rows, req: Request, reachable: bool): (Rows, Result<Response, Fault>) {
    match Prepared(Handlers(req.view), DecoratorsOf(req.view), req.verb)
    case Failure(f) => (rows, Failure(f))
    case Success(chain) =>
      var g := Run(chain, rows, None, req, reachable);
      (g.state, Normalised(g.outcome))
  }

  /** A request whose handler was found is the run of its decorated handler, normalised. */
  lemma StepRunsChain(rows: Rows, req: Request, reachable: bool, chain: Chain<Decorator, Handler>)
    requires Prepared(Handlers(req.view), DecoratorsOf(req.view), req.verb) == Success(chain)
    ensures var g := Run(chain, rows, None, req, reachable);
      Step(rows, req, reachable) == (g.state, Normalised(g.outcome))
  {
  }

  /** A request with no handler changes nothing and fails as dispatch fails. */
  lemma StepFailsUnhandled(rows: Rows, req: Request, reachable: bool, f: Fault)
    requires Prepared(Handlers(req.view), DecoratorsOf(req.view), req.verb) == Failure(f)
    ensures Step(rows, req, reachable) == (rows, Failure(f))
  {
  }

  // ---------------------------------------------------------------------------------------
  // Properties
  // ---------------------------------------------------------------------------------------

  /** No two stored servers share a name. */
  predicate UniqueNames(rows: Rows) {
    forall i, j :: i in rows && j in rows && i != j && Name in rows[i] && Name in rows[j] ==> rows[i][Name] != rows[j][Name]
  }

  /** A new server is stored under a fresh id with its loaded columns; nothing else changes. */
  lemma InsertAddsOne(rows: Rows, columns: Data)
    ensures var id := NextId(rows);
      id !in rows && Insert(rows, columns) == rows[id := Inserted(columns)]
    ensures forall k :: k in rows ==> k in Insert(rows, columns) && Insert(rows, columns)[k] == rows[k]
    ensures |Insert(rows, columns).Keys| == |rows.Keys| + 1
  {
    var id := NextId(rows);
    assert Insert(rows, columns).Keys == rows.Keys + {id};
  }

  /** The list shows every stored server once, in ascending id order. */
  lemma ListShowsEveryServer(rows: Rows)
    ensures ListAll(rows).JList? && |ListAll(rows).items| == |rows.Keys|
    ensures forall k :: 0 <= k < |ListAll(rows).items| ==>
      exists id :: id in rows && ListAll(rows).items[k] == Dump(id, rows[id])
    ensures forall id :: id in rows ==> exists k :: 0 <= k < |ListAll(rows).items| && ListAll(rows).items[k] == Dump(id, rows[id])
  {
    var ids := Ascending(rows.Keys);
    var items := ListAll(rows).items;
    DumpAllShows(ids, rows);
    forall id | id in rows ensures exists k :: 0 <= k < |items| && items[k] == Dump(id, rows[id]) {
      var k :| 0 <= k < |ids| && ids[k] == id;
      assert items[k] == Dump(ids[k], rows[ids[k]]);
    }
  }

  /** Naming a row `name` keeps the names unique when no other row has that name. */
  lemma RenamePreservesUnique(rows: Rows, id: int, row: Data)
    requires UniqueNames(rows)
    requires Name in row ==> forall other :: other != id && Named(rows, other, row[Name]) ==> false
    ensures UniqueNames(rows[id := row])
  {
    var r := rows[id := row];
    forall i, j | i in r && j in r && i != j && Name in r[i] && Name in r[j]
      ensures r[i][Name] != r[j][Name]
    {
      if i == id {
        assert !Named(rows, j, row[Name]);
      } else if j == id {
        assert !Named(rows, i, row[Name]);
      }
    }
  }

  /** A create that passed the schema adds a server whose name no stored server has. */
  lemma CreatePreservesUnique(rows: Rows, body: Json, reachable: bool)
    requires UniqueNames(rows)
    ensures UniqueNames(Create(rows, body, reachable).0)
  {
    if body.JDict? {
      var r := Load(body, false, None, rows);
      if r.Accepted? && reachable {
        AcceptedFields(body.entries, false, None, rows);
        AcceptedNameFree(body.entries, false, None, rows);
        var data := r.data;
        assert Name in data;
        assert FirstNamed(rows, data[Name]).None?;
        RenamePreservesUnique(rows, NextId(rows), Inserted(data));
      }
    }
  }

  /** The guarded server is the stored one under its id. */
  predicate Current(rows: Rows, slot: Option<Stored>) {
    slot.Some? ==> slot.value.id in rows && rows[slot.value.id] == slot.value.row
  }

  /** An update that passed the schema either keeps the name or takes one only the server itself holds. */
  lemma UpdatePreservesUnique(rows: Rows, instance: Stored, body: Json)
    requires UniqueNames(rows) && Current(rows, Some(instance))
    ensures UniqueNames(Update(rows, instance, body).0)
  {
    if body.JDict? {
      var r := Load(body, true, Some(instance.id), rows);
      if r.Accepted? {
        AcceptedNameFree(body.entries, true, Some(instance.id), rows);
        var data := r.data;
        var row := Apply(instance.row, data);
        if Name in data {
          assert FirstNamed(rows, data[Name]) != Some(instance.id) ==> FirstNamed(rows, data[Name]).None?;
        }
        RenamePreservesUnique(rows, instance.id, row);
      }
    }
  }

  lemma PerformPreservesUnique(h: Handler, rows: Rows, slot: Option<Stored>, req: Request, reachable: bool)
    requires UniqueNames(rows) && Current(rows, slot)
    ensures UniqueNames(Perform(h, rows, slot, req, reachable).0)
  {
    match h
    case ListPost => CreatePreservesUnique(rows, req.body, reachable);
    case DetailPut =>
      if slot.Some? { UpdatePreservesUnique(rows, slot.value, req.body); }
    case DetailDelete =>
      if slot.Some? {
        var after := rows - {slot.value.id};
        assert forall i :: i in after ==> i in rows && after[i] == rows[i];
      }
    case _ =>
  }

  /** The guard puts the stored server into the slot, so every handler sees the current row. */
  lemma {:induction false} RunPreservesUnique(c: Chain<Decorator, Handler>, rows: Rows, slot: Option<Stored>, req: Request, reachable: bool)
    requires UniqueNames(rows) && Current(rows, slot)
    ensures UniqueNames(Run(c, rows, slot, req, reachable).state)
    decreases c
  {
    match c
    case Call(h) => PerformPreservesUnique(h, rows, slot, req, reachable);
    case Wrapped(d, inner) =>
      var resolved := Resolve(d, Query, rows, req.kwargs);
      if resolved.Success? {
        var e := resolved.value;
        assert e.id in rows && e.row == rows[e.id];
        RunPreservesUnique(inner, rows, Some(e), req, reachable);
      }
  }

  /** Whatever the request, and whether or not the probe answers, no two stored servers end up sharing a name. */
  lemma StepPreservesUnique(rows: Rows, req: Request, reachable: bool)
    requires UniqueNames(rows)
    ensures UniqueNames(Step(rows, req, reachable).0)
  {
    var prepared := Prepared(Handlers(req.view), DecoratorsOf(req.view), req.verb);
    if prepared.Success? {
      RunPreservesUnique(prepared.value, rows, None, req, reachable);
    }
  }

  /** The database after a sequence of requests, each with its probe answer. */
  function RunAll(rows: Rows, reqs: seq<(Request, bool)>): Rows
    decreases |reqs|
  {
    if reqs == [] then rows else RunAll(Step(rows, reqs[0].0, reqs[0].1).0, reqs[1..])
  }

  /** Starting from any database with unique names, in particular an empty one, names stay unique. */
  lemma {:induction false} RunAllPreservesUnique(rows: Rows, reqs: seq<(Request, bool)>)
    requires UniqueNames(rows)
    ensures UniqueNames(RunAll(rows, reqs))
    decreases |reqs|
  {
    if reqs != [] {
      StepPreservesUnique(rows, reqs[0].0, reqs[0].1);
      RunAllPreservesUnique(Step(rows, reqs[0].0, reqs[0].1).0, reqs[1..]);
    }
  }

  // ---------------------------------------------------------------------------------------
  // Requests
  // ---------------------------------------------------------------------------------------

  /** The verbs the detail view serves; HEAD is served by its `get`. */
  predicate DetailVerb(requested: string) {
    LowerAscii(requested) in Handlers(ServerDetail) || requested == "HEAD"
  }

  /** The id the detail URL names, when it names a stored server. */
  predicate Names(rows: Rows, req: Request) {
    "object_id" in req.kwargs && req.kwargs["object_id"] in rows
  }

  /** Every verb of the detail view runs behind the one existence guard. */
  lemma DetailIsGuarded(req: Request)
    requires req.view == ServerDetail && DetailVerb(req.verb)
    ensures var p := Prepared(Handlers(ServerDetail), DecoratorsOf(ServerDetail), req.verb);
      p.Success? && p.value.Wrapped? && p.value.decorator == ObjectMustExist(ServerModel) && p.value.inner.Call?
  {
    var h := SelectHandler(Handlers(ServerDetail), req.verb);
    var d := [ObjectMustExist(ServerModel)];
    assert d[..0] == [];
    assert Wrap(h.value, d) == Wrapped(d[0], Call(h.value));
  }

  /** Without a stored server under `object_id` every detail verb answers the 404 envelope, and nothing changes. */
  lemma UnknownServerIsNotFound(rows: Rows, req: Request, reachable: bool)
    requires req.view == ServerDetail && DetailVerb(req.verb) && !Names(rows, req)
    ensures Step(rows, req, reachable) == (rows, Success(HandlerError(NotFound)))
    ensures var resp := Step(rows, req, reachable).1.value;
      resp.status == 404 && resp.body == JsonLine(Envelope(JStr("object doesn't exist")))
  {
    DetailIsGuarded(req);
    assert Resolve(ObjectMustExist(ServerModel), Query, rows, req.kwargs) == Failure(NotFound);
  }

  /** A verb neither view serves fails the dispatch assertion, naming the verb. */
  lemma UnservedVerbFails(rows: Rows, req: Request, reachable: bool)
    requires LowerAscii(req.verb) !in Handlers(req.view) && req.verb != "HEAD"
    ensures Step(rows, req, reachable) == (rows, Failure(AssertionFailed("Uninplemented method " + req.verb)))
  {
  }

  /** A detail request for a stored server runs its handler on that server. */
  lemma GuardPasses(rows: Rows, req: Request, reachable: bool)
    requires req.view == ServerDetail && DetailVerb(req.verb) && Names(rows, req)
    ensures var id := req.kwargs["object_id"];
      var h := SelectHandler(Handlers(ServerDetail), req.verb).value;
      var (after, outcome) := Perform(h, rows, Some(Stored(id, rows[id])), req, reachable);
      Step(rows, req, reachable) == (after, Normalised(outcome))
  {
    DetailIsGuarded(req);
  }

  /** A list request runs its handler with an empty slot. */
  lemma ListRoute(rows: Rows, req: Request, reachable: bool)
    requires req.view == ServerList && SelectHandler(Handlers(ServerList), req.verb).Some?
    ensures var h := SelectHandler(Handlers(ServerList), req.verb).value;
      var (after, outcome) := Perform(h, rows, None, req, reachable);
      Step(rows, req, reachable) == (after, Normalised(outcome))
  {
    assert DecoratorsFor(DecoratorsOf(ServerList), req.verb) == [];
  }

  /** HEAD is not one of the handler names. */
  lemma HeadIsNoHandler(requested: string)
    requires requested == "HEAD"
    ensures LowerAscii(requested) !in Handlers(ServerList) && LowerAscii(requested) !in Handlers(ServerDetail)
  {
    assert LowerAscii(requested)[0] == 'h';
  }

  /** GET (or HEAD) on the list: every stored server's dump, with status 200. */
  lemma ListAnswer(rows: Rows, req: Request, reachable: bool)
    requires req.view == ServerList && (LowerAscii(req.verb) == "get" || req.verb == "HEAD")
    ensures Step(rows, req, reachable) == (rows, Success(JsonResponse(ListAll(rows), 200, [])))
  {
    if req.verb == "HEAD" { HeadIsNoHandler(req.verb); }
    assert SelectHandler(Handlers(ServerList), req.verb) == Some(ListGet);
    ListRoute(rows, req, reachable);
  }

  /** GET (or HEAD) on a stored server: its dump, with status 200. */
  lemma ShowAnswer(rows: Rows, req: Request, reachable: bool)
    requires req.view == ServerDetail && (LowerAscii(req.verb) == "get" || req.verb == "HEAD") && Names(rows, req)
    ensures var id := req.kwargs["object_id"];
      Step(rows, req, reachable) == (rows, Success(JsonResponse(Dump(id, rows[id]), 200, [])))
  {
    if req.verb == "HEAD" { HeadIsNoHandler(req.verb); }
    assert SelectHandler(Handlers(ServerDetail), req.verb) == Some(DetailGet);
    GuardPasses(rows, req, reachable);
    var id := req.kwargs["object_id"];
    assert Perform(DetailGet, rows, Some(Stored(id, rows[id])), req, reachable) == (rows, Show(Stored(id, rows[id])));
  }

  /** The errors of a rejection are answered with status 400 and the first message of the last reported key. */
  lemma RejectionAnswer(errors: Errors)
    requires errors != [] && errors[|errors| - 1].1 != []
    ensures Normalised(Refused(errors)) == Success(JsonResponse(Envelope(JStr(errors[|errors| - 1].1[0])), 400, []))
  {
    var last := errors[|errors| - 1];
    var entries := ErrorsJson(errors);
    assert entries[|entries| - 1] == (last.0, JList(MessagesJson(last.1)));
    assert MessagesJson(last.1) == [JStr(last.1[0])] + MessagesJson(last.1)[1..];
    FieldErrorsCollapseToLastField(entries, last.0, last.1[0], MessagesJson(last.1)[1..], 400);
  }

  /**
   * POST on the list. A rejected body changes nothing and the probe is not consulted; an
   * accepted one that does not answer the probe changes nothing and answers the connection
   * error; otherwise the server is inserted under a fresh id and the answer is 201.
   */
  lemma CreateAnswer(rows: Rows, req: Request, reachable: bool)
    requires req.view == ServerList && LowerAscii(req.verb) == "post"
    ensures match Load(req.body, false, None, rows)
      case Rejected(errors) =>
        (forall other :: Step(rows, req, other) == Step(rows, req, reachable))
        && Step(rows, req, reachable) == (rows, Normalised(Refused(errors)))
      case Accepted(data) =>
        Step(rows, req, reachable)
        == if reachable then (Insert(rows, data), Success(JsonResponse(Ok, 201, [])))
           else (rows, Success(HandlerError(CannotConnect(Column(data, Host)))))
  {
  }

  /** PUT on a stored server: the loaded keys are set on it, or the errors are answered and nothing changes. */
  lemma UpdateAnswer(rows: Rows, req: Request, reachable: bool)
    requires req.view == ServerDetail && LowerAscii(req.verb) == "put" && Names(rows, req)
    ensures var id := req.kwargs["object_id"];
      match Load(req.body, true, Some(id), rows)
      case Rejected(errors) => Step(rows, req, reachable) == (rows, Normalised(Refused(errors)))
      case Accepted(data) =>
        Step(rows, req, reachable) == (rows[id := Apply(rows[id], data)], Success(JsonResponse(Ok, 200, [])))
  {
    assert SelectHandler(Handlers(ServerDetail), req.verb) == Some(DetailPut);
    GuardPasses(rows, req, reachable);
    var id := req.kwargs["object_id"];
    assert Perform(DetailPut, rows, Some(Stored(id, rows[id])), req, reachable) == Update(rows, Stored(id, rows[id]), req.body);
  }

  /** DELETE on a stored server removes it and nothing else. */
  lemma RemoveAnswer(rows: Rows, req: Request, reachable: bool)
    requires req.view == ServerDetail && LowerAscii(req.verb) == "delete" && Names(rows, req)
    ensures var id := req.kwargs["object_id"];
      Step(rows, req, reachable) == (rows - {id}, Success(JsonResponse(Ok, 200, [])))
      && id !in Step(rows, req, reachable).0
      && forall k :: k in rows && k != id ==> k in Step(rows, req, reachable).0 && Step(rows, req, reachable).0[k] == rows[k]
  {
    assert SelectHandler(Handlers(ServerDetail), req.verb) == Some(DetailDelete);
    GuardPasses(rows, req, reachable);
    var id := req.kwargs["object_id"];
    assert Perform(DetailDelete, rows, Some(Stored(id, rows[id])), req, reachable) == Remove(rows, Stored(id, rows[id]));
  }

  /** After an accepted PUT, a GET of the same server shows the updated columns and the untouched ones. */
  lemma UpdateIsVisible(rows: Rows, put: Request, get: Request, reachable: bool, data: Data)
    requires put.view == ServerDetail && LowerAscii(put.verb) == "put" && Names(rows, put)
    requires Load(put.body, true, Some(put.kwargs["object_id"]), rows) == Accepted(data)
    requires get.view == ServerDetail && LowerAscii(get.verb) == "get" && get.kwargs == put.kwargs
    ensures var id := put.kwargs["object_id"];
      var after := Step(rows, put, reachable).0;
      Step(after, get, reachable).1 == Success(JsonResponse(Dump(id, Apply(rows[id], data)), 200, []))
    ensures var id := put.kwargs["object_id"];
      var shown := Step(Step(rows, put, reachable).0, get, reachable).1.value.body.document;
      forall f :: f in Loadable ==>
        Lookup(shown.entries, Key(f)) == Some(ValueJson(if f in data then Some(data[f]) else Column(rows[id], f)))
  {
    UpdateAnswer(rows, put, reachable);
    var id := put.kwargs["object_id"];
    var after := rows[id := Apply(rows[id], data)];
    ShowAnswer(after, get, reachable);
    forall f | f in Loadable {
      DumpShowsColumns(id, Apply(rows[id], data), f);
    }
  }

  /** The answer to a name another server holds: 400 with the duplicate message. */
  const DuplicateAnswer := JsonResponse(Envelope(JStr(DuplicateMessage)), 400, [])

  /** Creating a server under a name a stored server has is refused with the duplicate message, and nothing is stored. */
  lemma DuplicateCreateRefused(rows: Rows, req: Request, reachable: bool, name: string, holder: int)
    requires req.view == ServerList && LowerAscii(req.verb) == "post" && req.body.JDict?
    requires Lookup(req.body.entries, Key(Name)) == Some(JStr(name)) && ValidName(name)
    requires Named(rows, holder, VStr(name))
    ensures Step(rows, req, reachable) == (rows, Success(DuplicateAnswer))
  {
    DuplicateNameRejected(req.body.entries, false, None, rows, name, holder);
    CreateAnswer(rows, req, reachable);
    var errors := Load(req.body, false, None, rows).errors;
    RejectionAnswer(errors);
  }

  /** Renaming a stored server to the name of another one is refused with the duplicate message, and nothing changes. */
  lemma DuplicateRenameRefused(rows: Rows, req: Request, reachable: bool, name: string, holder: int)
    requires UniqueNames(rows)
    requires req.view == ServerDetail && LowerAscii(req.verb) == "put" && Names(rows, req) && req.body.JDict?
    requires Lookup(req.body.entries, Key(Name)) == Some(JStr(name)) && ValidName(name)
    requires Named(rows, holder, VStr(name)) && holder != req.kwargs["object_id"]
    ensures Step(rows, req, reachable) == (rows, Success(DuplicateAnswer))
  {
    var id := req.kwargs["object_id"];
    assert !Named(rows, id, VStr(name));
    DuplicateNameRejected(req.body.entries, true, Some(id), rows, name, holder);
    UpdateAnswer(rows, req, reachable);
    var errors := Load(req.body, true, Some(id), rows).errors;
    RejectionAnswer(errors);
  }

  /**
   * Renaming a server to the name it already has passes the uniqueness rule; the name stays,
   * and a body that gives no port leaves the stored port as it was.
   */
  lemma OwnNameKept(rows: Rows, req: Request, reachable: bool)
    requires UniqueNames(rows)
    requires req.view == ServerDetail && LowerAscii(req.verb) == "put" && Names(rows, req)
    requires var id := req.kwargs["object_id"];
      req.body.JDict? && Clean(req.body.entries, true)
      && Name in rows[id] && Lookup(req.body.entries, Key(Name)) == Some(ValueJson(Some(rows[id][Name])))
    ensures var id := req.kwargs["object_id"];
      Load(req.body, true, Some(id), rows).Accepted?
      && Step(rows, req, reachable).1 == Success(JsonResponse(Ok, 200, []))
    ensures var id := req.kwargs["object_id"];
      id in Step(rows, req, reachable).0 && Step(rows, req, reachable).0[id][Name] == rows[id][Name]
    ensures var id := req.kwargs["object_id"];
      Lookup(req.body.entries, Key(Port)).None? ==>
        (Port in Step(rows, req, reachable).0[id] <==> Port in rows[id])
        && (Port in rows[id] ==> Step(rows, req, reachable).0[id][Port] == rows[id][Port])
  {
    var id := req.kwargs["object_id"];
    var entries := req.body.entries;
    CleanData(entries, true);
    LoadAcceptsIff(entries, true, Some(id), rows);
    var loaded := LoadFields(entries, Loadable, true).0;
    var data := ValidateSchema(loaded, true, Some(id), rows).0;
    PartialKeepsData(loaded, Some(id), rows);
    assert Name in data && data[Name] == rows[id][Name] by {
      assert Lookup(entries, Key(Name)) == Some(ValueJson(Some(data[Name])));
      assert ValueJson(Some(data[Name])) == ValueJson(Some(rows[id][Name]));
      assert data[Name].VStr? && rows[id][Name].VStr? by {
        assert Admissible(Name, data[Name]);
      }
    }
    OwnNamePasses(data, id, rows);
    forall f ensures !Fails(entries, f, true) { }
    UpdateAnswer(rows, req, reachable);
    AcceptedPort(entries, true, Some(id), rows);
  }
}
