/**
 * The existence guard a detail view puts in front of its handlers: it resolves the
 * `object_id` keyword argument through the query of a fixed object class, answers 404 when
 * there is nothing to resolve, and otherwise stores the object in the request slot and calls
 * the handler with the arguments it was given.
 *
 * The database the query reads and the handler may change is the state `S`; the request slot
 * (`g.instance`) is an explicit input and output.
 */
module Decorators {
  import opened Common
  import opened Rest

  const NotFoundMessage := "object doesn't exist"
  /** The exception both failed checks raise. */
  const NotFound := RestException(404, NotFoundMessage)

  /** ObjectMustExist(object_class): the decorator keeps the class it was built with. */
  datatype ObjectMustExist<C> = ObjectMustExist(objectClass: C)

  /** The keyword arguments of a call; the URL rule gives `object_id` as an integer. */
  type Kwargs = map<string, int>

  /**
   * The wrapped call: given the database, the object in the request slot and the call's
   * arguments, the database after the call and how the call ended.
   */
  type Handler<!S, -E, -A> = (S, E, A, Kwargs) -> (S, Outcome)

  /** The database after the call, what the wrapper left in the request slot, and how the call ended. */
  datatype Guarded<S, E> = Guarded(state: S, slot: Option<E>, outcome: Outcome)

  /**
   * The two checks of the wrapper: `query(c, state)` is the table behind `c.query.get`. The
   * object under `object_id`, or the 404 when there is no `object_id` or nothing under it.
   */
  function Resolve<C, S, E>(d: ObjectMustExist<C>, query: (C, S) -> map<int, E>, state: S, kwargs: Kwargs): Result<E, RestException> {
    if "object_id" !in kwargs then Failure(NotFound)
    else
      var table := query(d.objectClass, state);
      var id := kwargs["object_id"];
      if id !in table then Failure(NotFound) else Success(table[id])
  }

  /**
   * `ObjectMustExist(c)(func)(*args, **kwargs)`: on a failed check the database and the slot
   * are untouched and the call raises; otherwise the object goes into the slot and the call is
   * the handler's call.
   */
  function Wrapped<C, S, E, A>(d: ObjectMustExist<C>, query: (C, S) -> map<int, E>, state: S, slot: Option<E>,
                               func: Handler<S, E, A>, args: A, kwargs: Kwargs): Guarded<S, E>
  {
    match Resolve(d, query, state, kwargs)
    case Failure(e) => Guarded(state, slot, Raised(e))
    case Success(obj) =>
      var (after, outcome) := func(state, obj, args, kwargs);
      Guarded(after, Some(obj), outcome)
  }

  /** `wrapper(*args, **kwargs)`: the two guards, the write to the slot, the call. */
  method Wrapper<C, S, E, A>(d: ObjectMustExist<C>, query: (C, S) -> map<int, E>, state: S, slot: Option<E>,
                             func: Handler<S, E, A>, args: A, kwargs: Kwargs)
    returns (stateAfter: S, slotAfter: Option<E>, outcome: Outcome)
    ensures Guarded(stateAfter, slotAfter, outcome) == Wrapped(d, query, state, slot, func, args, kwargs)
  {
    stateAfter, slotAfter := state, slot;
    if "object_id" !in kwargs {
      return stateAfter, slotAfter, Raised(NotFound);
    }
    var objectId := kwargs["object_id"];
    var table := query(d.objectClass, state);
    if objectId !in table {
      return stateAfter, slotAfter, Raised(NotFound);
    }
    var obj := table[objectId];
    slotAfter := Some(obj);
    var result := func(state, obj, args, kwargs);
    stateAfter, outcome := result.0, result.1;
  }

  /** Without `object_id` the call raises the 404 whatever the handler, and nothing changes. */
  lemma MissingIdIsNotFound<C, S, E, A>(d: ObjectMustExist<C>, query: (C, S) -> map<int, E>, state: S, slot: Option<E>,
                                        func: Handler<S, E, A>, args: A, kwargs: Kwargs)
    requires "object_id" !in kwargs
    ensures Wrapped(d, query, state, slot, func, args, kwargs) == Guarded(state, slot, Raised(NotFound))
  {
  }

  /**
   * An id with nothing stored under it raises the same 404 and the handler is not called:
   * the result is the same for every handler. The id is tested for absence, not for falsity,
   * so id 0 is looked up like any other.
   */
  lemma UnknownIdIsNotFound<C, S, E, A>(d: ObjectMustExist<C>, query: (C, S) -> map<int, E>, state: S, slot: Option<E>,
                                        f1: Handler<S, E, A>, f2: Handler<S, E, A>, args: A, kwargs: Kwargs)
    requires "object_id" in kwargs && kwargs["object_id"] !in query(d.objectClass, state)
    ensures Wrapped(d, query, state, slot, f1, args, kwargs) == Guarded(state, slot, Raised(NotFound))
    ensures Wrapped(d, query, state, slot, f1, args, kwargs) == Wrapped(d, query, state, slot, f2, args, kwargs)
  {
  }

  /**
   * A stored id puts its object into the slot and the call is the handler's call with the
   * original arguments; whatever it ends with, a raised exception included, is passed on.
   */
  lemma KnownIdCallsHandler<C, S, E, A>(d: ObjectMustExist<C>, query: (C, S) -> map<int, E>, state: S, slot: Option<E>,
                                        func: Handler<S, E, A>, args: A, kwargs: Kwargs)
    requires "object_id" in kwargs && kwargs["object_id"] in query(d.objectClass, state)
    ensures var obj := query(d.objectClass, state)[kwargs["object_id"]];
      var (after, outcome) := func(state, obj, args, kwargs);
      Wrapped(d, query, state, slot, func, args, kwargs) == Guarded(after, Some(obj), outcome)
  {
  }

  /** The guard lets the call through exactly when `object_id` names a stored object, and only then writes the slot. */
  lemma ProceedsIffStored<C, S, E, A>(d: ObjectMustExist<C>, query: (C, S) -> map<int, E>, state: S, slot: Option<E>,
                                      func: Handler<S, E, A>, args: A, kwargs: Kwargs)
    ensures Resolve(d, query, state, kwargs).Success?
        <==> "object_id" in kwargs && kwargs["object_id"] in query(d.objectClass, state)
    ensures Wrapped(d, query, state, slot, func, args, kwargs).slot
         == if Resolve(d, query, state, kwargs).Success? then Some(Resolve(d, query, state, kwargs).value) else slot
  {
  }

  /** Only the table of the class fixed at construction is consulted. */
  lemma OnlyOwnClassIsQueried<C, S, E, A>(d: ObjectMustExist<C>, q1: (C, S) -> map<int, E>, q2: (C, S) -> map<int, E>,
                                          state: S, slot: Option<E>, func: Handler<S, E, A>, args: A, kwargs: Kwargs)
    requires q1(d.objectClass, state) == q2(d.objectClass, state)
    ensures Wrapped(d, q1, state, slot, func, args, kwargs) == Wrapped(d, q2, state, slot, func, args, kwargs)
  {
  }
}
