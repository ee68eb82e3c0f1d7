/**
 * The views over the database session. The session's identity map holds one `Server` object
 * per stored row; a handler changes the database by changing those objects and by adding or
 * deleting them, and every method here is proved to do what `ServerSpec` says of the rows.
 */
module ServerViews {
  import opened Common
  import opened Rest
  import opened Models
  import opened ServerSpec

  /** The session: the stored server objects by id. */
  class Store {
    var rows: map<int, Server>

    /** The objects the session holds. */
    function Objects(): set<Server>
      reads this
    {
      set id | id in rows :: rows[id]
    }

    /** Each object knows the id it is stored under; so no object is stored twice. */
    predicate Valid()
      reads this, Objects()
    {
      forall id :: id in rows ==> rows[id].id == Some(id)
    }

    /** The rows the session's objects hold. */
    function Contents(): Rows
      reads this, Objects()
    {
      map id | id in rows :: rows[id].columns
    }

    constructor ()
      ensures rows == map[] && Valid() && Contents() == map[]
    {
      rows := map[];
    }

    /** `session.add(server); session.commit()` of a new server: a fresh id and the column defaults. */
    method Insert(server: Server)
      requires Valid() && server.id == None && server !in Objects()
      modifies this, server
      ensures Valid()
      ensures server.id == Some(NextId(old(Contents()))) && server.columns == Inserted(old(server.columns))
      ensures Contents() == ServerSpec.Insert(old(Contents()), old(server.columns))
    {
      ghost var before := Contents();
      var id := NextId(Contents());
      assert id !in rows;
      server.id := Some(id);
      server.columns := Inserted(server.columns);
      rows := rows[id := server];
      assert Contents() == before[id := server.columns] by {
        forall k | k in rows && k != id ensures Contents()[k] == before[k] {
          assert rows[k] != server;
        }
      }
    }

    /** `server.save()`: an object the session already holds is written back as it stands. */
    method Save(server: Server)
      requires Valid() && (server.id == None ==> server !in Objects())
      requires server.id != None ==> server.id.value in rows && rows[server.id.value] == server
      modifies this, server
      ensures Valid()
      ensures old(server.id) == None ==> Contents() == ServerSpec.Insert(old(Contents()), old(server.columns))
      ensures old(server.id) != None ==> Contents() == old(Contents()) && rows == old(rows) && unchanged(server)
    {
      if server.id == None {
        Insert(server);
      }
    }

    /** `server.delete()`: the object leaves the session and its row the table. */
    method Delete(server: Server)
      requires Valid() && server.id != None && server.id.value in rows && rows[server.id.value] == server
      modifies this
      ensures Valid()
      ensures rows == old(rows) - {server.id.value}
      ensures Contents() == old(Contents()) - {server.id.value}
    {
      rows := rows - {server.id.value};
    }
  }

  /** The request slot as the specification sees it. */
  function SlotOf(slot: Server?): Option<Stored>
    reads slot
  {
    if slot == null || slot.id == None then None else Some(Stored(slot.id.value, slot.columns))
  }

  /** The guarded server as the specification sees it. */
  function StoredOf(instance: Server): Stored
    requires instance.id != None
    reads instance
  {
    Stored(instance.id.value, instance.columns)
  }

  /** The request slot holds a server of the session. */
  predicate InSession(store: Store, instance: Server)
    reads store, instance
  {
    instance.id != None && instance.id.value in store.rows && store.rows[instance.id.value] == instance
  }

  /** ServerList.get */
  method ListGet(store: Store) returns (outcome: Outcome)
    requires store.Valid()
    ensures outcome == Returned(Payload(Bare(ListAll(store.Contents()))))
  {
    outcome := Returned(Payload(Bare(ListAll(store.Contents()))));
  }

  /** ServerList.post */
  method ListPost(store: Store, body: Json, reachable: bool) returns (outcome: Outcome)
    requires store.Valid()
    modifies store
    ensures store.Valid()
    ensures store.Contents() == Create(old(store.Contents()), body, reachable).0
    ensures outcome == Create(old(store.Contents()), body, reachable).1
  {
    var loaded := Load(body, false, None, store.Contents());
    if loaded.Rejected? {
      return Refused(loaded.errors);
    }
    ghost var before := store.Contents();
    var server := CreateOrUpdate(loaded.data, null);
    assert store.Contents() == before;
    var pong := server.Ping(reachable);
    if pong.Failure? {
      assert store.Contents() == before;
      assert Probe(Column(loaded.data, Host), reachable) == Failure(pong.error);
      return Raised(pong.error);
    }
    store.Save(server);
    outcome := Returned(Payload(Pair(Ok, 201)));
  }

  /** ServerDetail.get */
  method DetailGet(store: Store, instance: Server) returns (outcome: Outcome)
    requires store.Valid() && InSession(store, instance)
    ensures outcome == Show(StoredOf(instance))
  {
    outcome := Show(Stored(instance.id.value, instance.columns));
  }

  /** ServerDetail.put */
  method DetailPut(store: Store, instance: Server, body: Json) returns (outcome: Outcome)
    requires store.Valid() && InSession(store, instance)
    modifies store, instance
    ensures store.Valid()
    ensures store.Contents() == Update(old(store.Contents()), old(StoredOf(instance)), body).0
    ensures outcome == Update(old(store.Contents()), old(StoredOf(instance)), body).1
  {
    var id := instance.id.value;
    var loaded := Load(body, true, Some(id), store.Contents());
    if loaded.Rejected? {
      return Refused(loaded.errors);
    }
    ghost var before := store.Contents();
    assert forall k :: k in store.rows && k != id ==> store.rows[k].id == Some(k) != instance.id;
    var server := CreateOrUpdate(loaded.data, instance);
    assert store.Contents() == before[id := Apply(before[id], loaded.data)] by {
      forall k | k in store.rows && k != id ensures store.Contents()[k] == before[k] { }
    }
    store.Save(server);
    outcome := Returned(Payload(Bare(Ok)));
  }

  /** ServerDetail.delete */
  method DetailDelete(store: Store, instance: Server) returns (outcome: Outcome)
    requires store.Valid() && InSession(store, instance)
    modifies store
    ensures store.Valid()
    ensures store.Contents() == Remove(old(store.Contents()), old(StoredOf(instance))).0
    ensures outcome == Remove(old(store.Contents()), old(StoredOf(instance))).1
  {
    store.Delete(instance);
    outcome := Returned(Payload(Bare(Ok)));
  }

  /** A handler of the list view, which reads no request slot. */
  method CallList(store: Store, h: Handler, instance: Server?, req: Request, reachable: bool) returns (outcome: Outcome)
    requires store.Valid() && (h == ServerSpec.ListGet || h == ServerSpec.ListPost)
    modifies store
    ensures store.Valid()
    ensures store.Contents() == Perform(h, old(store.Contents()), old(SlotOf(instance)), req, reachable).0
    ensures outcome == Perform(h, old(store.Contents()), old(SlotOf(instance)), req, reachable).1
  {
    ghost var rows := store.Contents();
    if h == ServerSpec.ListGet {
      outcome := ListGet(store);
    } else {
      outcome := ListPost(store, req.body, reachable);
      assert Perform(h, rows, SlotOf(instance), req, reachable) == Create(rows, req.body, reachable);
    }
  }

  /** A handler of the detail view, which works on the server in the request slot. */
  method CallDetail(store: Store, h: Handler, instance: Server, req: Request, reachable: bool) returns (outcome: Outcome)
    requires store.Valid() && InSession(store, instance)
    requires h == ServerSpec.DetailGet || h == ServerSpec.DetailPut || h == ServerSpec.DetailDelete
    modifies store, instance
    ensures store.Valid()
    ensures store.Contents() == Perform(h, old(store.Contents()), old(SlotOf(instance)), req, reachable).0
    ensures outcome == Perform(h, old(store.Contents()), old(SlotOf(instance)), req, reachable).1
  {
    ghost var rows := store.Contents();
    ghost var target := StoredOf(instance);
    assert SlotOf(instance) == Some(target);
    if h == ServerSpec.DetailGet {
      outcome := DetailGet(store, instance);
    } else if h == ServerSpec.DetailPut {
      outcome := DetailPut(store, instance, req.body);
      assert Perform(h, rows, Some(target), req, reachable) == Update(rows, target, req.body);
    } else {
      outcome := DetailDelete(store, instance);
      assert Perform(h, rows, Some(target), req, reachable) == Remove(rows, target);
    }
  }

  /** The handler method the chain ends in; a detail handler reads `g.instance`, which fails when nothing was stored in it. */
  method Call(store: Store, h: Handler, instance: Server?, req: Request, reachable: bool) returns (outcome: Outcome)
    requires store.Valid()
    requires instance != null ==> InSession(store, instance)
    modifies store, store.Objects()
    ensures store.Valid()
    ensures store.Contents() == Perform(h, old(store.Contents()), old(SlotOf(instance)), req, reachable).0
    ensures outcome == Perform(h, old(store.Contents()), old(SlotOf(instance)), req, reachable).1
  {
    if h == ServerSpec.ListGet || h == ServerSpec.ListPost {
      outcome := CallList(store, h, instance, req, reachable);
    } else if instance == null {
      outcome := Faulted(AttributeMissing("instance"));
    } else {
      ghost var id := instance.id.value;
      assert store.rows[id] == instance;
      assert instance in store.Objects();
      outcome := CallDetail(store, h, instance, req, reachable);
    }
  }

  /**
   * The decorated handler: each existence guard writes the request slot or answers 404, then the
   * handler runs. These are the checks of `Decorators.Wrapper`, run here on the session because
   * the handler changes it; `ServerSpec.RunIsGuarded` ties `Run` to `Decorators.Wrapped`.
   */
  method Invoke(store: Store, c: Chain<Decorator, Handler>, instance: Server?, req: Request, reachable: bool)
    returns (outcome: Outcome)
    requires store.Valid()
    requires instance != null ==> InSession(store, instance)
    modifies store, store.Objects()
    ensures store.Valid()
    ensures var g := Run(c, old(store.Contents()), old(SlotOf(instance)), req, reachable);
      store.Contents() == g.state && outcome == g.outcome
    decreases c
  {
    match c
    case Call(h) =>
      outcome := Call(store, h, instance, req, reachable);
    case Wrapped(d, inner) =>
      ghost var table := Query(d.objectClass, store.Contents());
      if "object_id" !in req.kwargs {
        return Raised(Decorators.NotFound);
      }
      var objectId := req.kwargs["object_id"];
      if objectId !in store.rows {
        assert objectId !in table;
        return Raised(Decorators.NotFound);
      }
      var found := store.rows[objectId];
      assert table[objectId] == Stored(objectId, found.columns);
      outcome := Invoke(store, inner, found, req, reachable);
  }

  /** The decorated handler's call and the normalisation of its result. */
  method Respond(store: Store, chain: Chain<Decorator, Handler>, req: Request, reachable: bool) returns (r: Result<Response, Fault>)
    requires store.Valid()
    modifies store, store.Objects()
    ensures store.Valid()
    ensures var g := Run(chain, old(store.Contents()), None, req, reachable);
      store.Contents() == g.state && r == Normalised(g.outcome)
  {
    var outcome := Invoke(store, chain, null, req, reachable);
    r := Normalise(outcome);
  }

  /**
   * RestView.dispatch_request on the session: no handler for the verb fails with the
   * assertion and changes nothing; otherwise the decorated handler runs on the session and its
   * result is normalised.
   */
  method Dispatch(store: Store, req: Request, reachable: bool) returns (r: Result<Response, Fault>)
    requires store.Valid()
    modifies store, store.Objects()
    ensures store.Valid()
    ensures store.Contents() == Step(old(store.Contents()), req, reachable).0
    ensures r == Step(old(store.Contents()), req, reachable).1
  {
    ghost var before := store.Contents();
    var prepared := Prepare(Handlers(req.view), DecoratorsOf(req.view), req.verb);
    if prepared.Failure? {
      StepFailsUnhandled(before, req, reachable, prepared.error);
      return Failure(prepared.error);
    }
    assert before == store.Contents();
    r := Respond(store, prepared.value, req, reachable);
    StepRunsChain(before, req, reachable, prepared.value);
  }
}
