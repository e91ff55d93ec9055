/**
 * The request handlers of src/index.ts, over mutable request, response and
 * continuation objects. Each handler is proved to leave exactly the state
 * that the value-level decision in module Validation describes.
 */
module Middleware {
  import opened Wrappers
  import opened Zod
  import opened ErrorFormat
  import opened Validation

  /** The three request sections the handlers read and overwrite in place. */
  class Request {
    var params: Value
    var query: Value
    var body: Value

    constructor (params: Value, query: Value, body: Value)
      ensures this.params == params && this.query == query && this.body == body
    {
      this.params, this.query, this.body := params, query, body;
    }

    function Data(): RequestData
      reads this
    {
      RequestData(params, query, body)
    }

    /** `req.params = v`, `req.query = v` or `req.body = v`. */
    method Set(f: Facet, v: Value)
      modifies this
      ensures Data() == old(Data()).With(f, v)
    {
      match f
      case Params => params := v;
      case Query => query := v;
      case Body => body := v;
    }
  }

  /** What a handler leaves on the response: the status set and the body sent. */
  class Response {
    var status: Option<int>
    var sent: Option<Payload>

    constructor ()
      ensures status == None && sent == None
    {
      status, sent := None, None;
    }
  }

  /** The `next` continuation, observed through the number of times it is called. */
  class Continuation {
    var calls: nat

    constructor ()
      ensures calls == 0
    {
      calls := 0;
    }

    method Call()
      modifies this
      ensures calls == old(calls) + 1
    {
      calls := calls + 1;
    }
  }

  /** "400 Bad Request", section 15.5.1 of RFC 9110. */
  const BadRequest: int := 400

  /** `sendErrors`: status 400 and the items as an array, in their order. */
  method SendErrors(errors: seq<ErrorListItem>, res: Response)
    modifies res
    ensures res.status == Some(BadRequest)
    ensures res.sent == Some(ErrorArray(WireList(errors)))
  {
    res.status := Some(BadRequest);
    res.sent := Some(ErrorArray(WireList(errors)));
  }

  /** `sendError`: status 400 and the one item as a single object. */
  method SendError(error: ErrorListItem, res: Response)
    modifies res
    ensures res.status == Some(BadRequest)
    ensures res.sent == Some(ErrorObject(ToWire(error)))
  {
    res.status := Some(BadRequest);
    res.sent := Some(ErrorObject(ToWire(error)));
  }

  /**
   * The handler returned by `processRequest(schemas)`: every configured
   * section is checked in Params, Query, Body order; parsed sections are
   * overwritten, rejected ones collected; then exactly one of `next()` or a
   * 400 response with all collected items.
   */
  method ProcessRequest(schemas: Schemas, req: Request, res: Response, next: Continuation)
    modifies req, res, next
    ensures req.Data() == Normalize(schemas, old(req.Data()))
    ensures Decide(schemas, old(req.Data())).Continue? ==>
      next.calls == old(next.calls) + 1 && unchanged(res)
    ensures Decide(schemas, old(req.Data())).Reject? ==>
      next.calls == old(next.calls) && res.status == Some(BadRequest)
      && res.sent == Some(ErrorArray(WireList(Decide(schemas, old(req.Data())).errors)))
  {
    ghost var before := req.Data();
    var errors: seq<ErrorListItem> := [];
    errors := CheckFacet(schemas, Params, req, errors);
    ghost var afterParams := req.Data();
    errors := CheckFacet(schemas, Query, req, errors);
    ghost var afterQuery := req.Data();
    errors := CheckFacet(schemas, Body, req, errors);
    OutcomeReadsOwnFacet(schemas, Query, afterParams, before);
    OutcomeReadsOwnFacet(schemas, Body, afterQuery, before);
    FailuresOfOrder(schemas, before);
    assert errors == Failures(schemas, Order, before);
    assert req.Data() == Normalize(schemas, before);
    if |errors| > 0 {
      assert Decide(schemas, before) == Reject(errors);
      SendErrors(errors, res);
      return;
    }
    assert Decide(schemas, before) == Continue;
    next.Call();
  }

  /**
   * One `if (schemas.x) { ... }` block of `processRequest`: when section `f`
   * is configured, parse it; store the data on success, or push a tagged
   * item on failure.
   */
  method CheckFacet(schemas: Schemas, f: Facet, req: Request, errors: seq<ErrorListItem>)
    returns (errs: seq<ErrorListItem>)
    modifies req
    ensures req.Data() == old(req.Data()).With(f, Normalize(schemas, old(req.Data())).Get(f))
    ensures errs == errors + FailureOf(schemas, f, old(req.Data()))
  {
    errs := errors;
    var schema := schemas.For(f);
    if schema.Some? {
      var parsed := schema.value(req.Data().Get(f));
      if parsed.Success? {
        req.Set(f, parsed.data);
      } else {
        errs := errs + [ErrorListItem(f, parsed.error)];
      }
    }
  }

  /** The handler returned by `processRequestBody(schema)`. */
  method ProcessRequestBody(schema: Schema, req: Request, res: Response, next: Continuation)
    modifies req, res, next
    ensures req.Data() == Normalize(Only(Body, schema), old(req.Data()))
    ensures req.params == old(req.params) && req.query == old(req.query)
    ensures match schema(old(req.body))
      case Success(data) =>
        req.body == data && next.calls == old(next.calls) + 1
        && res.status == old(res.status) && res.sent == old(res.sent)
      case Failure(error) =>
        req.body == old(req.body) && next.calls == old(next.calls)
        && res.status == Some(BadRequest) && res.sent == Some(ErrorArray(WireList([ErrorListItem(Body, error)])))
  {
    SingleFacet(Body, schema, req.Data());
    var parsed := schema(req.body);
    if parsed.Success? {
      req.body := parsed.data;
      next.Call();
    } else {
      SendErrors([ErrorListItem(Body, parsed.error)], res);
    }
  }

  /** The handler returned by `processRequestParams(schema)`. */
  method ProcessRequestParams(schema: Schema, req: Request, res: Response, next: Continuation)
    modifies req, res, next
    ensures req.Data() == Normalize(Only(Params, schema), old(req.Data()))
    ensures req.query == old(req.query) && req.body == old(req.body)
    ensures match schema(old(req.params))
      case Success(data) =>
        req.params == data && next.calls == old(next.calls) + 1
        && res.status == old(res.status) && res.sent == old(res.sent)
      case Failure(error) =>
        req.params == old(req.params) && next.calls == old(next.calls)
        && res.status == Some(BadRequest) && res.sent == Some(ErrorArray(WireList([ErrorListItem(Params, error)])))
  {
    SingleFacet(Params, schema, req.Data());
    var parsed := schema(req.params);
    if parsed.Success? {
      req.params := parsed.data;
      next.Call();
    } else {
      SendErrors([ErrorListItem(Params, parsed.error)], res);
    }
  }

  /** The handler returned by `processRequestQuery(schema)`. */
  method ProcessRequestQuery(schema: Schema, req: Request, res: Response, next: Continuation)
    modifies req, res, next
    ensures req.Data() == Normalize(Only(Query, schema), old(req.Data()))
    ensures req.params == old(req.params) && req.body == old(req.body)
    ensures match schema(old(req.query))
      case Success(data) =>
        req.query == data && next.calls == old(next.calls) + 1
        && res.status == old(res.status) && res.sent == old(res.sent)
      case Failure(error) =>
        req.query == old(req.query) && next.calls == old(next.calls)
        && res.status == Some(BadRequest) && res.sent == Some(ErrorArray(WireList([ErrorListItem(Query, error)])))
  {
    SingleFacet(Query, schema, req.Data());
    var parsed := schema(req.query);
    if parsed.Success? {
      req.query := parsed.data;
      next.Call();
    } else {
      SendErrors([ErrorListItem(Query, parsed.error)], res);
    }
  }
}
