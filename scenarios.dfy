/**
 * The situations exercised by src/index.test.ts, stated with a concrete
 * schema, and one client of the handlers that reads their contracts only.
 */
module Scenarios {
  import opened Wrappers
  import opened Zod
  import opened ErrorFormat
  import opened Validation
  import opened Middleware

  /** The error the schema below reports for a value it does not accept. */
  function StringExpected(key: string): ZodError {
    ZodError([Issue([key], "Expected string")])
  }

  /**
   * A schema shaped like `z.object({ key: z.string() })`: it accepts an
   * object whose `key` is a string and keeps that key alone.
   */
  function StringField(key: string): (schema: Schema)
    ensures forall v :: schema(v).Success? <==> v.Object? && key in v.fields && v.fields[key].Str?
    ensures forall v :: schema(v).Success? ==> schema(v).data == Object(map[key := v.fields[key]])
    ensures forall v :: schema(v).Failure? ==> schema(v).error == StringExpected(key)
  {
    (v: Value) =>
      if v.Object? && key in v.fields && v.fields[key].Str?
      then Success(Object(map[key := v.fields[key]]))
      else Failure(StringExpected(key))
  }

  /** Undeclared keys are dropped by a successful parse. */
  lemma StringFieldStrips(key: string, fields: map<string, Value>)
    requires key in fields && fields[key].Str?
    ensures StringField(key)(Object(fields)).Success?
    ensures StringField(key)(Object(fields)).data.fields.Keys == {key}
    ensures StringField(key)(Object(fields)).data.fields[key] == fields[key]
  {
  }

  function Text(key: string, s: string): Value {
    Object(map[key := Str(s)])
  }

  /** An object holding only `key` as a string is accepted and kept as it is. */
  lemma StringFieldKeepsText(key: string, s: string)
    ensures StringField(key)(Text(key, s)) == Success(Text(key, s))
  {
    assert map[key := Text(key, s).fields[key]] == Text(key, s).fields;
  }

  /** An object holding `key` as a number is rejected. */
  lemma StringFieldRejectsNumber(key: string, n: int)
    ensures StringField(key)(Object(map[key := Number(n)])) == Failure(StringExpected(key))
  {
  }

  /** All three sections configured, as in the combined-handler tests. */
  function AllThree(): Schemas {
    Schemas(Some(StringField("RequestParamsKey")), Some(StringField("RequestQueryKey")), Some(StringField("RequestBodyKey")))
  }

  /** A body with an extra key continues, and the extra key is gone. */
  lemma BodyExtraKeyDropped()
    ensures var body := Object(map["RequestBodyKey" := Str("parsed"), "SomeOtherRandomValue" := Str("extra")]);
      var req := RequestData(Undefined, Undefined, body);
      Decide(Only(Body, StringField("RequestBodyKey")), req) == Continue
      && Normalize(Only(Body, StringField("RequestBodyKey")), req).body == Text("RequestBodyKey", "parsed")
  {
    var body := Object(map["RequestBodyKey" := Str("parsed"), "SomeOtherRandomValue" := Str("extra")]);
    SingleFacet(Body, StringField("RequestBodyKey"), RequestData(Undefined, Undefined, body));
    assert map["RequestBodyKey" := body.fields["RequestBodyKey"]] == map["RequestBodyKey" := Str("parsed")];
  }

  /** A number where a string is expected in params: one Params item, sent as "Params". */
  lemma ParamsWrongTypeRejected()
    ensures var req := RequestData(Object(map["RequestParamsKey" := Number(1234)]),
                                   Text("RequestQueryKey", "v"), Text("RequestBodyKey", "v"));
      var d := Decide(AllThree(), req);
      d == Reject([ErrorListItem(Params, StringExpected("RequestParamsKey"))])
      && WireList(d.errors) == [WireError("Params", StringExpected("RequestParamsKey"))]
  {
    var req := RequestData(Object(map["RequestParamsKey" := Number(1234)]),
                           Text("RequestQueryKey", "v"), Text("RequestBodyKey", "v"));
    StringFieldRejectsNumber("RequestParamsKey", 1234);
    StringFieldKeepsText("RequestQueryKey", "v");
    StringFieldKeepsText("RequestBodyKey", "v");
    var item := ErrorListItem(Params, StringExpected("RequestParamsKey"));
    assert FailureOf(AllThree(), Params, req) == [item];
    assert FailureOf(AllThree(), Query, req) == [] && FailureOf(AllThree(), Body, req) == [];
    FailuresOfOrder(AllThree(), req);
    assert Failures(AllThree(), Order, req) == [item];
    SingleMatchesList(ErrorListItem(Params, StringExpected("RequestParamsKey")));
  }

  /** Only the query fails: the list is exactly one Query item, and the others are stored. */
  lemma QueryOnlyFailure()
    ensures var req := RequestData(Text("RequestParamsKey", "v"),
                                   Object(map["RequestQueryKey" := Number(1234)]), Text("RequestBodyKey", "v"));
      Decide(AllThree(), req) == Reject([ErrorListItem(Query, StringExpected("RequestQueryKey"))])
      && Normalize(AllThree(), req).params == Text("RequestParamsKey", "v")
      && Normalize(AllThree(), req).body == Text("RequestBodyKey", "v")
  {
    var req := RequestData(Text("RequestParamsKey", "v"),
                           Object(map["RequestQueryKey" := Number(1234)]), Text("RequestBodyKey", "v"));
    StringFieldKeepsText("RequestParamsKey", "v");
    StringFieldRejectsNumber("RequestQueryKey", 1234);
    StringFieldKeepsText("RequestBodyKey", "v");
    var item := ErrorListItem(Query, StringExpected("RequestQueryKey"));
    assert FailureOf(AllThree(), Query, req) == [item];
    assert FailureOf(AllThree(), Params, req) == [] && FailureOf(AllThree(), Body, req) == [];
    FailuresOfOrder(AllThree(), req);
    assert Failures(AllThree(), Order, req) == [item];
  }

  /** Params not configured: kept with its extra key while query and body are stripped. */
  lemma UnconfiguredParamsKept()
    ensures var p := Object(map["RequestParamsKey" := Str("v"), "SomeOtherRandomValue" := Str("x")]);
      var q := Object(map["RequestQueryKey" := Str("v"), "SomeOtherRandomValue" := Str("x")]);
      var b := Object(map["RequestBodyKey" := Str("v"), "SomeOtherRandomValue" := Str("x")]);
      var schemas := Schemas(None, Some(StringField("RequestQueryKey")), Some(StringField("RequestBodyKey")));
      Normalize(schemas, RequestData(p, q, b)) == RequestData(p, Text("RequestQueryKey", "v"), Text("RequestBodyKey", "v"))
      && Decide(schemas, RequestData(p, q, b)) == Continue
  {
    var p := Object(map["RequestParamsKey" := Str("v"), "SomeOtherRandomValue" := Str("x")]);
    var q := Object(map["RequestQueryKey" := Str("v"), "SomeOtherRandomValue" := Str("x")]);
    var b := Object(map["RequestBodyKey" := Str("v"), "SomeOtherRandomValue" := Str("x")]);
    var schemas := Schemas(None, Some(StringField("RequestQueryKey")), Some(StringField("RequestBodyKey")));
    FailuresOfOrder(schemas, RequestData(p, q, b));
    assert map["RequestQueryKey" := q.fields["RequestQueryKey"]] == map["RequestQueryKey" := Str("v")];
    assert map["RequestBodyKey" := b.fields["RequestBodyKey"]] == map["RequestBodyKey" := Str("v")];
  }

  /**
   * A caller of ProcessRequest on live objects, every section configured and
   * the query holding a number: it reports what the handler left behind.
   */
  method QueryFailureClient() returns (calls: nat, status: Option<int>, sent: Option<Payload>, params: Value, body: Value)
    ensures calls == 0 && status == Some(400)
    ensures sent == Some(ErrorArray([WireError("Query", StringExpected("RequestQueryKey"))]))
    ensures params == Text("RequestParamsKey", "v") && body == Text("RequestBodyKey", "v")
  {
    var req := new Request(Text("RequestParamsKey", "v"), Object(map["RequestQueryKey" := Number(1234)]),
                           Text("RequestBodyKey", "v"));
    var res := new Response();
    var next := new Continuation();
    QueryOnlyFailure();
    ProcessRequest(AllThree(), req, res, next);
    SingleMatchesList(ErrorListItem(Query, StringExpected("RequestQueryKey")));
    calls, status, sent, params, body := next.calls, res.status, res.sent, req.params, req.body;
  }
}
