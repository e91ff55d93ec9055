/**
 * The error items collected by the handlers and the shape in which they are
 * sent: `ErrorListItem` and the `errors.map(...)` projection of `sendErrors`
 * in src/index.ts.
 */
module ErrorFormat {
  import opened Wrappers
  import opened Zod

  /** The three request sections a schema can be attached to. */
  datatype Facet = Params | Query | Body

  /** The literal tag written into the `type` field of an error item. */
  function FacetName(f: Facet): (name: string)
    ensures FacetFromName(name) == Some(f)
  {
    match f
    case Params => "Params"
    case Query => "Query"
    case Body => "Body"
  }

  /** Reads a `type` tag back; anything but the three literals is not a tag. */
  function FacetFromName(name: string): Option<Facet> {
    if name == "Params" then Some(Params)
    else if name == "Query" then Some(Query)
    else if name == "Body" then Some(Body)
    else None
  }

  lemma FacetFromNameInverse(name: string)
    ensures FacetFromName(name).Some? ==> FacetName(FacetFromName(name).value) == name
    ensures FacetFromName(name).Some? <==> name in {"Params", "Query", "Body"}
  {
  }

  /** `{ type, errors }`: which section failed, and the engine's error for it. */
  datatype ErrorListItem = ErrorListItem(facet: Facet, errors: ZodError)

  /** The object put on the wire for one error item, with `type` as a string. */
  datatype WireError = WireError(typeName: string, errors: ZodError)

  /** What a rejection sends: an array (`sendErrors`) or one object (`sendError`). */
  datatype Payload = ErrorArray(entries: seq<WireError>) | ErrorObject(entry: WireError)

  /** The object sent for one item: its tag as a string and its error unchanged. */
  function ToWire(e: ErrorListItem): (w: WireError)
    ensures FromWire(w) == Some(e)
    ensures w.errors == e.errors
  {
    WireError(FacetName(e.facet), e.errors)
  }

  /** Reads one wire object back into an error item. */
  function FromWire(w: WireError): Option<ErrorListItem> {
    match FacetFromName(w.typeName)
    case Some(f) => Some(ErrorListItem(f, w.errors))
    case None => None
  }

  /** The array `sendErrors` sends: one wire object per item, in the same order. */
  function WireList(errs: seq<ErrorListItem>): (ws: seq<WireError>)
    ensures |ws| == |errs|
    ensures forall i :: 0 <= i < |errs| ==>
      ws[i].errors == errs[i].errors && FromWire(ws[i]) == Some(errs[i])
  {
    if errs == [] then [] else [ToWire(errs[0])] + WireList(errs[1..])
  }

  /** Reads a sent array back; fails if any entry carries an unknown tag. */
  function DecodeList(ws: seq<WireError>): Option<seq<ErrorListItem>> {
    if ws == [] then Some([])
    else
      match (FromWire(ws[0]), DecodeList(ws[1..]))
      case (Some(e), Some(rest)) => Some([e] + rest)
      case _ => None
  }

  /** The sent array determines the error list: nothing is lost or reordered. */
  lemma {:induction false} WireListRoundTrip(errs: seq<ErrorListItem>)
    ensures DecodeList(WireList(errs)) == Some(errs)
  {
    if errs != [] {
      var ws := WireList(errs);
      assert ws[1..] == WireList(errs[1..]);
      WireListRoundTrip(errs[1..]);
      assert FromWire(ws[0]) == Some(errs[0]);
      assert [errs[0]] + errs[1..] == errs;
    }
  }

  /** Two error lists that are sent identically are identical. */
  lemma WireListInjective(a: seq<ErrorListItem>, b: seq<ErrorListItem>)
    requires WireList(a) == WireList(b)
    ensures a == b
  {
    WireListRoundTrip(a);
    WireListRoundTrip(b);
  }

  /** `sendError(e)` sends the single element of what `sendErrors([e])` sends. */
  lemma SingleMatchesList(e: ErrorListItem)
    ensures WireList([e]) == [ToWire(e)]
  {
  }
}
