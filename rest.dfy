/**
 * The REST view base: the exception a handler raises to answer with an error, the error
 * response built from it, and request dispatch — choosing the handler for the verb, wrapping
 * it in the configured decorators, and normalising whatever the handler produced into one
 * JSON response.
 *
 * Dispatch is split at the call of the handler: `Prepare` does everything before it and
 * `Normalise` everything after it; the caller runs the chain in between.
 */
module Rest {
  import opened Common

  /** RestView.content_type */
  const ContentType := "application/json; charset=utf-8"
  /** The Content-Type header a Flask response made from a string starts with. */
  const HtmlContentType := "text/html; charset=utf-8"
  const ContentTypeHeader := "Content-Type"

  /** RestException(code, message) */
  datatype RestException = RestException(code: int, message: string)

  /** A response's header list, in order; names compare without regard to case. */
  type Headers = seq<(string, string)>

  datatype Body =
    | JsonLine(document: Json)  // the JSON text of `document` followed by a newline
    | Opaque(text: string)      // any other body, such as a rendered page

  datatype Response = Response(status: int, body: Body, headers: Headers)

  predicate SameName(a: string, b: string) {
    LowerAscii(a) == LowerAscii(b)
  }

  /** The header list with every entry named `name` removed. */
  function Without(h: Headers, name: string): Headers {
    if h == [] then []
    else if SameName(h[0].0, name) then Without(h[1..], name)
    else [h[0]] + Without(h[1..], name)
  }

  /** The values of the entries named `name`, in order. */
  function ValuesOf(h: Headers, name: string): seq<string> {
    if h == [] then []
    else (if SameName(h[0].0, name) then [h[0].1] else []) + ValuesOf(h[1..], name)
  }

  lemma {:induction false} WithoutRemovesAll(h: Headers, name: string)
    ensures ValuesOf(Without(h, name), name) == []
    ensures Without(Without(h, name), name) == Without(h, name)
  {
    if h != [] {
      WithoutRemovesAll(h[1..], name);
      if !SameName(h[0].0, name) {
        assert ([h[0]] + Without(h[1..], name))[1..] == Without(h[1..], name);
      }
    }
  }

  /**
   * `headers[name] = value`: the first entry with that name takes the new value and the
   * later ones are dropped; with no such entry the pair is appended.
   */
  function SetHeader(h: Headers, name: string, value: string): (r: Headers)
    ensures ValuesOf(r, name) == [value]
    ensures Without(r, name) == Without(h, name)
  {
    if h == [] then [(name, value)]
    else if SameName(h[0].0, name) then
      WithoutRemovesAll(h[1..], name);
      var r := [(name, value)] + Without(h[1..], name);
      assert r[1..] == Without(h[1..], name);
      r
    else
      var r := [h[0]] + SetHeader(h[1..], name, value);
      assert r[1..] == SetHeader(h[1..], name, value);
      r
  }

  /** `make_response(text, code)` where `text` is the JSON text of `document` plus a newline. */
  function MakeResponse(document: Json, code: int): Response {
    Response(code, JsonLine(document), [(ContentTypeHeader, HtmlContentType)])
  }

  /** `{'ok': False, 'message': message}` */
  function Envelope(message: Json): Json {
    JDict([("ok", JBool(false)), ("message", message)])
  }

  /** RestView.handler_error: the error envelope of a raised RestException. */
  function HandlerError(e: RestException): (resp: Response)
    ensures resp.status == e.code
    ensures resp.body == JsonLine(Envelope(JStr(e.message)))
    ensures resp.headers == [(ContentTypeHeader, ContentType)]
  {
    var resp := MakeResponse(Envelope(JStr(e.message)), e.code);
    resp.(headers := SetHeader(resp.headers, ContentTypeHeader, ContentType))
  }

  /**
   * Serialise `document`, build the response with `code`, extend its headers with the
   * handler's and force the JSON content type.
   */
  function JsonResponse(document: Json, code: int, extra: Headers): (resp: Response)
    ensures resp.status == code && resp.body == JsonLine(document)
    ensures ValuesOf(resp.headers, ContentTypeHeader) == [ContentType]
    ensures Without(resp.headers, ContentTypeHeader) == Without(extra, ContentTypeHeader)
  {
    var made := MakeResponse(document, code);
    var extended := made.headers + extra;
    assert extended[1..] == extra;
    made.(headers := SetHeader(extended, ContentTypeHeader, ContentType))
  }

  // ---------------------------------------------------------------------------------------
  // Before the call: handler and decorators
  // ---------------------------------------------------------------------------------------

  /** `method_decorators`: either a mapping from lower-case verb to decorators, or one sequence for every verb. */
  datatype DecoratorConfig<D> = PerVerb(byVerb: map<string, seq<D>>) | Listed(all: seq<D>)

  /**
   * `getattr(self, request.method.lower(), None)`, falling back to `get` for HEAD. The view's
   * handler methods are `table`, keyed by their (lower-case) names.
   */
  function SelectHandler<H>(table: map<string, H>, requested: string): Option<H> {
    var verb := LowerAscii(requested);
    if verb in table then Some(table[verb])
    else if requested == "HEAD" && "get" in table then Some(table["get"])
    else None
  }

  /** The decorators that apply to the requested verb. */
  function DecoratorsFor<D>(config: DecoratorConfig<D>, requested: string): seq<D> {
    match config
    case PerVerb(byVerb) =>
      var verb := LowerAscii(requested);
      if verb in byVerb then byVerb[verb] else []
    case Listed(all) => all
  }

  /** A handler wrapped in decorators: `Wrapped(d, inner)` is `d(inner)`. */
  datatype Chain<D, H> = Call(handler: H) | Wrapped(decorator: D, inner: Chain<D, H>)

  /** The decorators of a chain in the order they run, outermost first. */
  function Layers<D, H>(c: Chain<D, H>): seq<D> {
    match c
    case Call(_) => []
    case Wrapped(d, inner) => [d] + Layers(inner)
  }

  /** The handler at the centre of a chain. */
  function Core<D, H>(c: Chain<D, H>): H {
    match c
    case Call(h) => h
    case Wrapped(_, inner) => Core(inner)
  }

  /** The result of `for decorator in decorators: method = decorator(method)`. */
  function Wrap<D, H>(handler: H, decorators: seq<D>): Chain<D, H>
    decreases |decorators|
  {
    if decorators == [] then Call(handler)
    else Wrapped(decorators[|decorators| - 1], Wrap(handler, decorators[..|decorators| - 1]))
  }

  /** Each decorator wraps the previous result, so the last listed runs first. */
  lemma {:induction false} WrapLayers<D, H>(handler: H, decorators: seq<D>)
    ensures Core(Wrap(handler, decorators)) == handler
    ensures Layers(Wrap(handler, decorators)) == Reversed(decorators)
    decreases |decorators|
  {
    if decorators != [] {
      var n := |decorators| - 1;
      WrapLayers(handler, decorators[..n]);
      assert decorators == decorators[..n] + [decorators[n]];
      ReversedSnoc(decorators[..n], decorators[n]);
    }
  }

  /** A chain is determined by its layers and its handler. */
  lemma {:induction false} ChainDetermined<D, H>(c1: Chain<D, H>, c2: Chain<D, H>)
    requires Layers(c1) == Layers(c2) && Core(c1) == Core(c2)
    ensures c1 == c2
  {
    match c1
    case Call(_) =>
      assert c2.Call?;
    case Wrapped(d, inner) =>
      assert Layers(c1)[0] == d;
      assert c2.Wrapped? && c2.decorator == d;
      assert Layers(inner) == Layers(c1)[1..] == Layers(c2)[1..] == Layers(c2.inner);
      ChainDetermined(inner, c2.inner);
  }

  /** What dispatch_request builds before calling: the decorated handler, or the assertion failure. */
  function Prepared<D, H>(table: map<string, H>, config: DecoratorConfig<D>, requested: string): Result<Chain<D, H>, Fault> {
    match SelectHandler(table, requested)
    case None => Failure(AssertionFailed("Uninplemented method " + requested))
    case Some(h) => Success(Wrap(h, DecoratorsFor(config, requested)))
  }

  /** dispatch_request up to the call: pick the handler, pick the decorators, apply them in a loop. */
  method Prepare<D, H>(table: map<string, H>, config: DecoratorConfig<D>, requested: string)
    returns (r: Result<Chain<D, H>, Fault>)
    ensures r == Prepared(table, config, requested)
  {
    var handler := SelectHandler(table, requested);
    if handler.None? {
      return Failure(AssertionFailed("Uninplemented method " + requested));
    }
    var decorators := DecoratorsFor(config, requested);
    var chain: Chain<D, H> := Call(handler.value);
    for i := 0 to |decorators|
      invariant chain == Wrap(handler.value, decorators[..i])
    {
      assert decorators[..i + 1][..i] == decorators[..i];
      chain := Wrapped(decorators[i], chain);
    }
    assert decorators[..|decorators|] == decorators;
    return Success(chain);
  }

  /** A verb is looked up by its lower-case name, whatever its case in the request. */
  lemma SelectIgnoresCase<H>(table: map<string, H>, m1: string, m2: string)
    requires LowerAscii(m1) == LowerAscii(m2) && LowerAscii(m1) in table
    ensures SelectHandler(table, m1) == SelectHandler(table, m2) == Some(table[LowerAscii(m1)])
  {
  }

  /**
   * A HEAD request on a view without `head` runs `get`, but under the decorators configured
   * for "head", not those for "get".
   */
  lemma HeadFallsBackToGet<D, H>(table: map<string, H>, byVerb: map<string, seq<D>>)
    requires "head" !in table && "get" in table
    ensures SelectHandler(table, "HEAD") == Some(table["get"])
    ensures Prepared(table, PerVerb(byVerb), "HEAD")
         == Success(Wrap(table["get"], if "head" in byVerb then byVerb["head"] else []))
  {
    assert LowerAscii("HEAD") == "head";
  }

  // ---------------------------------------------------------------------------------------
  // After the call: normalising the handler's outcome
  // ---------------------------------------------------------------------------------------

  /** A handler's return value that is not a Response: a single value or a tuple. */
  datatype Payload =
    | Bare(body: Json)                               // not a tuple
    | Pair(body: Json, code: int)                    // (body, code)
    | Triple(body: Json, code: int, headers: Headers) // (body, code, headers)
    | OtherTuple(arity: nat)                          // a tuple of any other length

  datatype Returned = AResponse(response: Response) | Payload(payload: Payload)

  /** How the call of the decorated handler ended. */
  datatype Outcome =
    | Returned(value: Returned)
    | Raised(exception: RestException)
    | Faulted(fault: Fault)   // any other exception; dispatch does not catch it

  datatype Unpacked = Unpacked(data: Json, code: int, headers: Headers)

  /** The static helper `unpack`: status 200 and no headers unless the tuple gives them. */
  function Unpack(p: Payload): (r: Result<Unpacked, Fault>)
    ensures r.Failure? <==> p.OtherTuple?
    ensures p.Bare? ==> r == Success(Unpacked(p.body, 200, []))
    ensures p.Pair? ==> r == Success(Unpacked(p.body, p.code, []))
    ensures p.Triple? ==> r == Success(Unpacked(p.body, p.code, p.headers))
  {
    match p
    case Bare(v) => Success(Unpacked(v, 200, []))
    case Pair(data, code) => Success(Unpacked(data, code, []))
    case Triple(data, code, headers) => Success(Unpacked(data, code, headers))
    case OtherTuple(_) => Failure(UnboundLocal("data"))
  }

  /** The message one field's errors contribute: the first if they are a non-empty list, else the value itself. */
  function MessageOf(v: Json): Json {
    if v.JList? && |v.items| > 0 then v.items[0] else v
  }

  /** The message left after overwriting it once per key: that of the last key, unbound for no keys. */
  function LastMessage(entries: seq<(string, Json)>): Option<Json> {
    if entries == [] then None else Some(MessageOf(entries[|entries| - 1].1))
  }

  /**
   * dispatch_request after the call. A RestException becomes its envelope; a Response passes
   * through; anything else is unpacked, and an error status with a dict body collapses to one
   * message. The success branch, which the code never reaches (see `NormalisedAsWritten`), is
   * the JSON of the body with the handler's status and headers.
   */
  function Normalised(o: Outcome): Result<Response, Fault> {
    match o
    case Faulted(f) => Failure(f)
    case Raised(e) => Success(HandlerError(e))
    case Returned(AResponse(resp)) => Success(resp)
    case Returned(Payload(p)) =>
      match Unpack(p)
      case Failure(f) => Failure(f)
      case Success(Unpacked(data, code, headers)) =>
        if code >= 400 && data.JDict? then
          match LastMessage(data.entries)
          case None => Failure(UnboundLocal("message"))
          case Some(m) => Success(JsonResponse(Envelope(m), code, headers))
        else Success(JsonResponse(data, code, headers))
  }

  /** dispatch_request after the call, with the loop that overwrites `message` once per key. */
  method Normalise(o: Outcome) returns (r: Result<Response, Fault>)
    ensures r == Normalised(o)
  {
    if o.Faulted? {
      return Failure(o.fault);
    }
    var resp: Returned;
    if o.Raised? {
      resp := AResponse(HandlerError(o.exception));
    } else {
      resp := o.value;
    }
    if resp.AResponse? {
      return Success(resp.response);
    }
    var unpacked := Unpack(resp.payload);
    if unpacked.Failure? {
      return Failure(unpacked.error);
    }
    var data, code, headers := unpacked.value.data, unpacked.value.code, unpacked.value.headers;
    if code >= 400 && data.JDict? {
      var entries := data.entries;
      var message: Option<Json> := None;
      for i := 0 to |entries|
        invariant i == 0 ==> message == None
        invariant i > 0 ==> message == Some(MessageOf(entries[i - 1].1))
      {
        var value := entries[i].1;
        if value.JList? && |value.items| > 0 {
          message := Some(value.items[0]);
        } else {
          message := Some(value);
        }
      }
      if message.None? {
        return Failure(UnboundLocal("message"));
      }
      return Success(JsonResponse(Envelope(message.value), code, headers));
    }
    return Success(JsonResponse(data, code, headers));
  }

  /** A Response the handler returned, or one handler_error built, is returned unchanged. */
  lemma ResponsesPassThrough(resp: Response, e: RestException)
    ensures Normalised(Returned(AResponse(resp))) == Success(resp)
    ensures Normalised(Raised(e)) == Success(HandlerError(e))
    ensures HandlerError(e).status == e.code
    ensures HandlerError(e).body == JsonLine(Envelope(JStr(e.message)))
  {
  }

  /**
   * Every response dispatch builds itself (all but a Response the handler returned) is JSON
   * and carries exactly one Content-Type, the JSON one.
   */
  lemma BuiltResponsesAreJson(o: Outcome)
    requires !(o.Returned? && o.value.AResponse?)
    requires Normalised(o).Success?
    ensures Normalised(o).value.body.JsonLine?
    ensures ValuesOf(Normalised(o).value.headers, ContentTypeHeader) == [ContentType]
  {
    if o.Raised? {
      assert SameName(ContentTypeHeader, ContentTypeHeader);
    }
  }

  /**
   * An error status with a dict body becomes `{ok: false, message}`, the message taken from
   * the last key, under the handler's status and with the handler's other headers kept.
   */
  lemma ErrorDictCollapses(body: seq<(string, Json)>, code: int, headers: Headers)
    requires code >= 400 && body != []
    ensures Normalised(Returned(Payload(Triple(JDict(body), code, headers)))).Success?
    ensures var resp := Normalised(Returned(Payload(Triple(JDict(body), code, headers)))).value;
      && resp.status == code
      && resp.body == JsonLine(Envelope(MessageOf(body[|body| - 1].1)))
      && Without(resp.headers, ContentTypeHeader) == Without(headers, ContentTypeHeader)
  {
  }

  /** A field-error dict made by the schema (field -> list of messages) collapses to the last field's first message. */
  lemma FieldErrorsCollapseToLastField(body: seq<(string, Json)>, field: string, first: string, rest: seq<Json>, code: int)
    requires code >= 400 && body != [] && body[|body| - 1] == (field, JList([JStr(first)] + rest))
    ensures Normalised(Returned(Payload(Pair(JDict(body), code))))
         == Success(JsonResponse(Envelope(JStr(first)), code, []))
  {
    var p := Pair(JDict(body), code);
    assert Unpack(p) == Success(Unpacked(JDict(body), code, []));
    assert MessageOf(body[|body| - 1].1) == JStr(first);
    assert LastMessage(body) == Some(JStr(first));
  }

  /** An empty error dict leaves `message` unbound. */
  lemma EmptyErrorDictFails(code: int)
    requires code >= 400
    ensures Normalised(Returned(Payload(Pair(JDict([]), code)))) == Failure(UnboundLocal("message"))
  {
  }

  /** Below 400, or with a body that is not a dict, the body is sent as it is with the handler's status. */
  lemma SuccessBodyPassesThrough(p: Payload)
    requires !p.OtherTuple? && !(p.Bare? == false && p.code >= 400 && p.body.JDict?)
    ensures Normalised(Returned(Payload(p))).Success?
    ensures var resp := Normalised(Returned(Payload(p))).value;
      && resp.body == JsonLine(p.body)
      && resp.status == (if p.Bare? then 200 else p.code)
  {
  }

  // ---------------------------------------------------------------------------------------
  // The code as written
  // ---------------------------------------------------------------------------------------

  /**
   * dispatch_request as the file has it: `unpack` is defined inside dispatch_request, after
   * the line that calls it, so `RestView.unpack` does not exist and every handler result that
   * is not a Response ends in AttributeError.
   */
  function NormalisedAsWritten(o: Outcome): Result<Response, Fault> {
    match o
    case Faulted(f) => Failure(f)
    case Raised(e) => Success(HandlerError(e))
    case Returned(AResponse(resp)) => Success(resp)
    case Returned(Payload(_)) => Failure(AttributeMissing("unpack"))
  }

  /**
   * As written, the duplicate-name answer `({'name': ['Redis server already exists']}, 400)`
   * never reaches the client as the 400 envelope the tests expect; the corrected dispatch
   * sends it.
   */
  lemma AsWrittenLosesFieldErrors(message: string)
    ensures var o := Returned(Payload(Pair(JDict([("name", JList([JStr(message)]))]), 400)));
      && NormalisedAsWritten(o) == Failure(AttributeMissing("unpack"))
      && Normalised(o) == Success(JsonResponse(Envelope(JStr(message)), 400, []))
  {
    var entries := [("name", JList([JStr(message)]))];
    assert [JStr(message)] + [] == [JStr(message)];
    FieldErrorsCollapseToLastField(entries, "name", message, [], 400);
  }

  /** As written, no plain handler result is ever answered; the two dispatches agree on everything else. */
  lemma AsWrittenAgreesOnlyOnExceptions(o: Outcome)
    ensures o.Returned? && o.value.Payload? ==> NormalisedAsWritten(o) == Failure(AttributeMissing("unpack"))
    ensures !(o.Returned? && o.value.Payload?) ==> NormalisedAsWritten(o) == Normalised(o)
  {
  }
}
