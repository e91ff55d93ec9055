/**
 * The decision that `processRequest` in src/index.ts makes, stated on values:
 * which sections are overwritten with what, which error items are collected,
 * and whether the request continues or is rejected.
 */
module Validation {
  import opened Wrappers
  import opened Zod
  import opened ErrorFormat

  /** The three sections of a request, as seen by the handler. */
  datatype RequestData = RequestData(params: Value, query: Value, body: Value) {
    function Get(f: Facet): Value {
      match f
      case Params => params
      case Query => query
      case Body => body
    }

    /** This request with section `f` holding `v`. */
    function With(f: Facet, v: Value): (r: RequestData)
      ensures r.Get(f) == v && forall g :: g != f ==> r.Get(g) == Get(g)
    {
      match f
      case Params => this.(params := v)
      case Query => this.(query := v)
      case Body => this.(body := v)
    }
  }

  /** The configuration object `{ params?, query?, body? }` of `processRequest`. */
  datatype Schemas = Schemas(params: Option<Schema>, query: Option<Schema>, body: Option<Schema>) {
    function For(f: Facet): Option<Schema> {
      match f
      case Params => params
      case Query => query
      case Body => body
    }
  }

  /** The configuration that carries `schema` for `f` and nothing else. */
  function Only(f: Facet, schema: Schema): Schemas {
    Restrict(Schemas(Some(schema), Some(schema), Some(schema)), f)
  }

  /** `schemas` with every section but `f` removed. */
  function Restrict(schemas: Schemas, f: Facet): Schemas {
    Schemas(
      if f == Params then schemas.params else None,
      if f == Query then schemas.query else None,
      if f == Body then schemas.body else None)
  }

  /** What happens to one section: not configured, parsed, or rejected. */
  datatype FacetOutcome = Skipped | Parsed(data: Value) | Rejected(error: ZodError)

  /** The result of `safeParse` on section `f`, or Skipped when `f` has no schema. */
  function OutcomeOf(schemas: Schemas, f: Facet, req: RequestData): (o: FacetOutcome)
    ensures o.Skipped? <==> schemas.For(f).None?
    ensures o.Parsed? ==> schemas.For(f).value(req.Get(f)) == Success(o.data)
    ensures o.Rejected? ==> schemas.For(f).value(req.Get(f)) == Failure(o.error)
  {
    match schemas.For(f)
    case None => Skipped
    case Some(schema) =>
      match schema(req.Get(f))
      case Success(data) => Parsed(data)
      case Failure(error) => Rejected(error)
  }

  /**
   * The request after the handler: a configured section that parses holds
   * the schema's output; every other section keeps its value.
   */
  function Normalize(schemas: Schemas, req: RequestData): (r: RequestData)
    ensures forall f :: schemas.For(f).None? ==> r.Get(f) == req.Get(f)
    ensures forall f :: schemas.For(f).Some? && schemas.For(f).value(req.Get(f)).Success? ==>
      r.Get(f) == schemas.For(f).value(req.Get(f)).data
    ensures forall f :: schemas.For(f).Some? && schemas.For(f).value(req.Get(f)).Failure? ==>
      r.Get(f) == req.Get(f)
  {
    RequestData(
      match OutcomeOf(schemas, Params, req) case Parsed(data) => data case _ => req.params,
      match OutcomeOf(schemas, Query, req) case Parsed(data) => data case _ => req.query,
      match OutcomeOf(schemas, Body, req) case Parsed(data) => data case _ => req.body)
  }

  /** The fixed checking order of `processRequest`. */
  const Order: seq<Facet> := [Params, Query, Body]

  function Rank(f: Facet): nat {
    match f
    case Params => 0
    case Query => 1
    case Body => 2
  }

  /** The error item one section contributes: one if it was rejected, else none. */
  function FailureOf(schemas: Schemas, f: Facet, req: RequestData): (r: seq<ErrorListItem>)
    ensures schemas.For(f).Some? && schemas.For(f).value(req.Get(f)).Failure? ==>
      r == [ErrorListItem(f, schemas.For(f).value(req.Get(f)).error)]
    ensures schemas.For(f).None? || schemas.For(f).value(req.Get(f)).Success? ==> r == []
  {
    match OutcomeOf(schemas, f, req)
    case Rejected(error) => [ErrorListItem(f, error)]
    case _ => []
  }

  /**
   * The error items of the sections `fs`, each judged on the request's
   * original value: a reference definition with no short-circuit in it.
   */
  function Failures(schemas: Schemas, fs: seq<Facet>, req: RequestData): (errs: seq<ErrorListItem>)
    ensures |errs| <= |fs|
    ensures forall i :: 0 <= i < |errs| ==>
      errs[i].facet in fs && OutcomeOf(schemas, errs[i].facet, req) == Rejected(errs[i].errors)
  {
    if fs == [] then [] else FailureOf(schemas, fs[0], req) + Failures(schemas, fs[1..], req)
  }

  /** The sections that have an item in `errs`. */
  function Tags(errs: seq<ErrorListItem>): set<Facet> {
    set i | 0 <= i < |errs| :: errs[i].facet
  }

  predicate RankSorted(fs: seq<Facet>) {
    forall i, j :: 0 <= i < j < |fs| ==> Rank(fs[i]) < Rank(fs[j])
  }

  /** Items appear in Params, Query, Body order, at most one per section. */
  predicate ErrorsInOrder(errs: seq<ErrorListItem>) {
    forall i, j :: 0 <= i < j < |errs| ==> Rank(errs[i].facet) < Rank(errs[j].facet)
  }

  /**
   * What the error list of `processRequest` must be, stated without
   * computing it: ordered, one item exactly for each rejected section, and
   * each item carrying that section's error unchanged.
   */
  predicate IsRejectionList(schemas: Schemas, req: RequestData, errs: seq<ErrorListItem>) {
    && ErrorsInOrder(errs)
    && (forall f :: f in Tags(errs) <==> OutcomeOf(schemas, f, req).Rejected?)
    && (forall i :: 0 <= i < |errs| ==> OutcomeOf(schemas, errs[i].facet, req) == Rejected(errs[i].errors))
  }

  /** What `processRequest` ends with: `next()`, or a rejection with its items. */
  datatype Decision = Continue | Reject(errors: seq<ErrorListItem>)

  function Decide(schemas: Schemas, req: RequestData): (d: Decision)
    ensures d == Continue <==> forall f :: !OutcomeOf(schemas, f, req).Rejected?
    ensures d.Reject? ==> d.errors != [] && IsRejectionList(schemas, req, d.errors)
  {
    RejectionListValid(schemas, req);
    TagsEmpty(Failures(schemas, Order, req));
    var errs := Failures(schemas, Order, req);
    if |errs| > 0 then Reject(errs) else Continue
  }

  // ---- Lemmas ----

  lemma FailuresOfOrder(schemas: Schemas, req: RequestData)
    ensures Failures(schemas, Order, req)
         == FailureOf(schemas, Params, req) + FailureOf(schemas, Query, req) + FailureOf(schemas, Body, req)
  {
    var p, q, b := FailureOf(schemas, Params, req), FailureOf(schemas, Query, req), FailureOf(schemas, Body, req);
    assert Order[1..] == [Query, Body] && [Query, Body][1..] == [Body] && [Body][1..] == [];
    assert Failures(schemas, [Body], req) == b + Failures(schemas, [], req) == b;
    assert Failures(schemas, [Query, Body], req) == q + b;
    assert Failures(schemas, Order, req) == p + (q + b);
  }

  /** A section's outcome reads that section's value and nothing else of the request. */
  lemma OutcomeReadsOwnFacet(schemas: Schemas, f: Facet, a: RequestData, b: RequestData)
    requires a.Get(f) == b.Get(f)
    ensures OutcomeOf(schemas, f, a) == OutcomeOf(schemas, f, b)
    ensures FailureOf(schemas, f, a) == FailureOf(schemas, f, b)
  {
  }

  lemma OrderCoversAll(f: Facet)
    ensures f in Order
  {
    match f
    case Params => assert Order[0] == f;
    case Query => assert Order[1] == f;
    case Body => assert Order[2] == f;
  }

  lemma TagsConcat(a: seq<ErrorListItem>, b: seq<ErrorListItem>)
    ensures Tags(a + b) == Tags(a) + Tags(b)
  {
    forall f | f in Tags(a + b) ensures f in Tags(a) + Tags(b) {
      var i :| 0 <= i < |a + b| && (a + b)[i].facet == f;
      if i < |a| { assert a[i].facet == f; } else { assert b[i - |a|].facet == f; }
    }
    forall f | f in Tags(a) + Tags(b) ensures f in Tags(a + b) {
      if f in Tags(a) {
        var i :| 0 <= i < |a| && a[i].facet == f;
        assert (a + b)[i].facet == f;
      } else {
        var i :| 0 <= i < |b| && b[i].facet == f;
        assert (a + b)[|a| + i].facet == f;
      }
    }
  }

  lemma TagsEmpty(errs: seq<ErrorListItem>)
    ensures Tags(errs) == {} <==> errs == []
  {
    if errs != [] {
      assert errs[0].facet in Tags(errs);
    }
  }

  /** The items for `fs` are in the order of `fs`. */
  lemma {:induction false} FailuresInOrder(schemas: Schemas, fs: seq<Facet>, req: RequestData)
    requires RankSorted(fs)
    ensures ErrorsInOrder(Failures(schemas, fs, req))
  {
    if fs != [] {
      var rest := fs[1..];
      assert RankSorted(rest) by {
        forall i, j | 0 <= i < j < |rest| ensures Rank(rest[i]) < Rank(rest[j]) {
          assert rest[i] == fs[i + 1] && rest[j] == fs[j + 1];
        }
      }
      FailuresInOrder(schemas, rest, req);
      var head, tail := FailureOf(schemas, fs[0], req), Failures(schemas, rest, req);
      assert Failures(schemas, fs, req) == head + tail;
      if head != [] {
        assert head == [ErrorListItem(fs[0], head[0].errors)];
        forall k | 0 <= k < |tail| ensures Rank(fs[0]) < Rank(tail[k].facet) {
          var m :| 0 <= m < |rest| && rest[m] == tail[k].facet;
          assert fs[m + 1] == tail[k].facet;
        }
        OrderedCons(head[0], tail);
      }
    }
  }

  lemma OrderedCons(e: ErrorListItem, tail: seq<ErrorListItem>)
    requires ErrorsInOrder(tail)
    requires forall k :: 0 <= k < |tail| ==> Rank(e.facet) < Rank(tail[k].facet)
    ensures ErrorsInOrder([e] + tail)
  {
    var errs := [e] + tail;
    forall i, j | 0 <= i < j < |errs| ensures Rank(errs[i].facet) < Rank(errs[j].facet) {
      assert errs[j] == tail[j - 1];
      if i > 0 { assert errs[i] == tail[i - 1]; }
    }
  }

  /** A section has an item for `fs` exactly when it is in `fs` and was rejected. */
  lemma {:induction false} FailuresComplete(schemas: Schemas, fs: seq<Facet>, req: RequestData, f: Facet)
    ensures f in Tags(Failures(schemas, fs, req)) <==> f in fs && OutcomeOf(schemas, f, req).Rejected?
  {
    if fs != [] {
      FailuresComplete(schemas, fs[1..], req, f);
      TagsConcat(FailureOf(schemas, fs[0], req), Failures(schemas, fs[1..], req));
      var head := FailureOf(schemas, fs[0], req);
      assert f in Tags(head) <==> f == fs[0] && OutcomeOf(schemas, f, req).Rejected? by {
        if head != [] { assert head[0].facet == fs[0]; }
      }
      assert f in fs <==> f == fs[0] || f in fs[1..];
    }
  }

  /** The error list of `processRequest` is the list described by IsRejectionList. */
  lemma RejectionListValid(schemas: Schemas, req: RequestData)
    ensures IsRejectionList(schemas, req, Failures(schemas, Order, req))
  {
    FailuresInOrder(schemas, Order, req);
    forall f ensures f in Tags(Failures(schemas, Order, req)) <==> OutcomeOf(schemas, f, req).Rejected? {
      FailuresComplete(schemas, Order, req, f);
      OrderCoversAll(f);
    }
  }

  lemma TagsTail(errs: seq<ErrorListItem>)
    requires errs != [] && ErrorsInOrder(errs)
    ensures Tags(errs[1..]) == Tags(errs) - {errs[0].facet}
  {
    assert errs == [errs[0]] + errs[1..];
    TagsConcat([errs[0]], errs[1..]);
    assert Tags([errs[0]]) == {errs[0].facet};
    forall i | 0 <= i < |errs[1..]| ensures errs[1..][i].facet != errs[0].facet {
      assert errs[1..][i] == errs[i + 1];
    }
  }

  /** Two ordered lists with the same sections and the same item per section are equal. */
  lemma {:induction false} OrderedListsDetermined(a: seq<ErrorListItem>, b: seq<ErrorListItem>)
    requires ErrorsInOrder(a) && ErrorsInOrder(b) && Tags(a) == Tags(b)
    requires forall i, j :: 0 <= i < |a| && 0 <= j < |b| && a[i].facet == b[j].facet ==> a[i] == b[j]
    ensures a == b
  {
    TagsEmpty(a);
    TagsEmpty(b);
    if a != [] && b != [] {
      assert a[0].facet in Tags(b);
      var j :| 0 <= j < |b| && b[j].facet == a[0].facet;
      assert b[0].facet in Tags(a);
      var k :| 0 <= k < |a| && a[k].facet == b[0].facet;
      assert Rank(a[0].facet) <= Rank(a[k].facet);
      assert Rank(b[0].facet) <= Rank(b[j].facet);
      assert a[0].facet == b[0].facet;
      TagsTail(a);
      TagsTail(b);
      assert ErrorsInOrder(a[1..]) && ErrorsInOrder(b[1..]);
      forall i, j | 0 <= i < |a[1..]| && 0 <= j < |b[1..]| && a[1..][i].facet == b[1..][j].facet
        ensures a[1..][i] == b[1..][j]
      {
        assert a[1..][i] == a[i + 1] && b[1..][j] == b[j + 1];
      }
      OrderedListsDetermined(a[1..], b[1..]);
      assert a == [a[0]] + a[1..] && b == [b[0]] + b[1..];
    }
  }

  /** IsRejectionList admits no other list than the one `processRequest` builds. */
  lemma RejectionListUnique(schemas: Schemas, req: RequestData, errs: seq<ErrorListItem>)
    requires IsRejectionList(schemas, req, errs)
    ensures errs == Failures(schemas, Order, req)
  {
    var built := Failures(schemas, Order, req);
    RejectionListValid(schemas, req);
    assert Tags(errs) == Tags(built);
    OrderedListsDetermined(errs, built);
  }

  /**
   * No short-circuit: what happens to section `f` depends only on its own
   * schema and its own value, not on the other sections or their results.
   */
  lemma FacetIndependent(schemas: Schemas, req: RequestData, other: RequestData, f: Facet)
    requires other.Get(f) == req.Get(f)
    ensures Normalize(schemas, req).Get(f) == Normalize(Restrict(schemas, f), other).Get(f)
    ensures f in Tags(Failures(schemas, Order, req)) <==> f in Tags(Failures(Restrict(schemas, f), Order, other))
    ensures FailureOf(schemas, f, req) == FailureOf(Restrict(schemas, f), f, other)
  {
    assert OutcomeOf(schemas, f, req) == OutcomeOf(Restrict(schemas, f), f, other);
    FailuresComplete(schemas, Order, req, f);
    FailuresComplete(Restrict(schemas, f), Order, other, f);
    OrderCoversAll(f);
  }

  /**
   * A rejected section does not stop another configured section from being
   * parsed and stored, whichever of the two comes first, while the request is
   * still rejected. The imperative handler meets this through its
   * postcondition `req.Data() == Normalize(schemas, old(req.Data()))`.
   */
  lemma LaterFacetStillNormalized(schemas: Schemas, req: RequestData, rejected: Facet, parsed: Facet)
    requires OutcomeOf(schemas, rejected, req).Rejected? && OutcomeOf(schemas, parsed, req).Parsed?
    ensures Decide(schemas, req).Reject?
    ensures Normalize(schemas, req).Get(parsed) == OutcomeOf(schemas, parsed, req).data
  {
  }

  /** `processRequestX(schema)` decides as `processRequest({x: schema})`. */
  lemma SingleFacet(f: Facet, schema: Schema, req: RequestData)
    ensures Decide(Only(f, schema), req) ==
      match schema(req.Get(f))
      case Success(_) => Continue
      case Failure(error) => Reject([ErrorListItem(f, error)])
    ensures forall g ::
      Normalize(Only(f, schema), req).Get(g) ==
      (if g == f && schema(req.Get(f)).Success? then schema(req.Get(f)).data else req.Get(g))
  {
    var only := Only(f, schema);
    assert only.For(f).Some? && only.For(f).value == schema;
    assert forall g :: g != f ==> only.For(g).None?;
    FailuresOfOrder(only, req);
    assert Failures(only, Order, req) == FailureOf(only, f, req) by {
      match f
      case Params => assert FailureOf(only, Query, req) == [] && FailureOf(only, Body, req) == [];
      case Query => assert FailureOf(only, Params, req) == [] && FailureOf(only, Body, req) == [];
      case Body => assert FailureOf(only, Params, req) == [] && FailureOf(only, Query, req) == [];
    }
  }
}
