/** `FetchHelper`, the route-independent request helper of src/index.ts, the
    default error renderer `toJsonErrorResponse` and the `errorHandler`
    wrapper. */
module Fetch {
  import opened Wrappers
  import opened JsonValues
  import opened Entries
  import opened HttpErrors
  import opened FetchApi
  import opened PathPattern

  /** A helper for one request matched against one path pattern. */
  datatype FetchHelper = FetchHelper(pathPattern: string, request: Request)

  /** The (name, value) entries of the parameter record: name `i` receives
      value `i`, or `undefined` when there are fewer values than names. */
  function ParamEntries(names: seq<string>, values: seq<Option<string>>): (es: seq<(string, Option<string>)>)
    ensures |es| == |names|
    ensures forall i :: 0 <= i < |es| ==> es[i].0 == names[i]
    ensures forall i :: 0 <= i < |es| ==> es[i].1 == if i < |values| then values[i] else None
  {
    seq(|names|, i requires 0 <= i < |names| => (names[i], if i < |values| then values[i] else None))
  }

  /** The values `params()` pairs with the names: the first group of every
      match of the compiled pattern over the pathname. */
  function ParamValues(h: FetchHelper): seq<Option<string>> {
    FirstGroups(Compile(h.pathPattern), h.request.pathname, 0)
  }

  /** `params()`: the record of placeholder names to extracted values. */
  function Params(h: FetchHelper): map<string, Option<string>> {
    FromEntries(ParamEntries(ParamNames(h.pathPattern), ParamValues(h)))
  }

  /** The record has one key per placeholder name and no other. */
  lemma ParamsKeys(h: FetchHelper)
    ensures forall k :: k in Params(h) <==> k in ParamNames(h.pathPattern)
  {
    var names := ParamNames(h.pathPattern);
    var es := ParamEntries(names, ParamValues(h));
    FromEntriesKeys(es);
    forall k ensures k in KeysOf(es) <==> k in names {
      if k in names {
        var i :| 0 <= i < |names| && names[i] == k;
        assert es[i].0 == k;
      }
    }
  }

  /** The value recorded for a name is the value paired with its last
      occurrence in the pattern. */
  lemma {:induction false} ParamsValue(h: FetchHelper, k: string)
    requires k in Params(h)
    ensures exists i :: 0 <= i < |ParamNames(h.pathPattern)| && ParamNames(h.pathPattern)[i] == k
                        && (forall j :: i < j < |ParamNames(h.pathPattern)| ==> ParamNames(h.pathPattern)[j] != k)
                        && Params(h)[k] == (if i < |ParamValues(h)| then ParamValues(h)[i] else None)
  {
    var es := ParamEntries(ParamNames(h.pathPattern), ParamValues(h));
    FromEntriesKeys(es);
    FromEntriesValue(es, k);
    var i :| IsLastWith(es, k, i) && FromEntries(es)[k] == es[i].1;
    assert forall j :: i < j < |es| ==> es[j].0 != k;
  }

  /** Every extracted value lies within one path segment. */
  lemma ParamsNoSlash(h: FetchHelper)
    ensures forall k :: k in Params(h) && Params(h)[k].Some? ==> NoSlash(Params(h)[k].value)
  {
    FirstGroupsNoSlash(Compile(h.pathPattern), h.request.pathname, 0);
    forall k | k in Params(h) && Params(h)[k].Some? ensures NoSlash(Params(h)[k].value) {
      ParamsValue(h, k);
      var i :| 0 <= i < |ParamNames(h.pathPattern)| && ParamNames(h.pathPattern)[i] == k
               && Params(h)[k] == (if i < |ParamValues(h)| then ParamValues(h)[i] else None);
      assert ParamValues(h)[i] in ParamValues(h);
    }
  }

  /** A pathname the pattern does not match gives every name the value
      `undefined`; nothing is thrown. */
  lemma ParamsNoMatch(h: FetchHelper)
    requires FirstMatch(Compile(h.pathPattern), h.request.pathname, 0).None?
    ensures forall k :: k in Params(h) ==> Params(h)[k] == None
  {
    NoMatchNoValues(Compile(h.pathPattern), h.request.pathname, 0);
    forall k | k in Params(h) ensures Params(h)[k] == None {
      ParamsValue(h, k);
    }
  }

  predicate Distinct(names: seq<string>) {
    forall i, j :: 0 <= i < j < |names| ==> names[i] != names[j]
  }

  /** When the pattern matches the pathname exactly once, only the first
      name receives a value (group 1 of that match); every other name maps
      to `undefined`. */
  lemma ParamsSingleMatch(h: FetchHelper)
    requires |ParamValues(h)| == 1
    requires |ParamNames(h.pathPattern)| >= 1 && Distinct(ParamNames(h.pathPattern))
    ensures var names := ParamNames(h.pathPattern);
      && names[0] in Params(h) && Params(h)[names[0]] == ParamValues(h)[0]
      && forall i :: 1 <= i < |names| ==> names[i] in Params(h) && Params(h)[names[i]] == None
  {
    var names := ParamNames(h.pathPattern);
    var es := ParamEntries(names, ParamValues(h));
    forall i | 0 <= i < |names| ensures names[i] in Params(h) && Params(h)[names[i]] == es[i].1 {
      assert IsLastWith(es, names[i], i);
      FromEntriesLastWins(es, names[i], i);
    }
  }

  /** `/things/{thingId}` against `/things/1`: `{ thingId: "1" }`; in
      general a pattern with one trailing placeholder against a pathname
      whose last segment is `id`. */
  lemma OneSegmentParams(prefix: string, name: string, id: string, request: Request)
    requires PlainText(prefix) && prefix != [] && '}' !in name && NoSlash(id)
    requires request.pathname == prefix + id
    ensures Params(FetchHelper(prefix + "{" + name + "}", request)) == map[name := Some(id)]
  {
    OneSegmentMatch(prefix, name, id);
    var h := FetchHelper(prefix + "{" + name + "}", request);
    var es := ParamEntries([name], [Some(id)]);
    assert es == [(name, Some(id))];
    assert FromEntries(es) == FromEntries(es[..0])[name := Some(id)];
  }

  /** Whole-segment placeholders with distinct names, any number of them:
      the first name receives its segment and every other name maps to
      `undefined`. */
  lemma WholeSegmentParams(lits: seq<string>, names: seq<string>, vals: seq<string>, request: Request)
    requires WellBraced(lits, names) && SegmentLits(lits) && lits[0] != []
    requires |vals| == |names| >= 1 && Distinct(names)
    requires forall i :: 0 <= i < |vals| ==> NoSlash(vals[i])
    requires request.pathname == Spelled(lits, vals)
    ensures var p := Params(FetchHelper(Braced(lits, names), request));
      && names[0] in p && p[names[0]] == Some(vals[0])
      && forall i :: 1 <= i < |names| ==> names[i] in p && p[names[i]] == None
  {
    WholeSegmentValues(lits, names, vals);
    ParamNamesBraced(lits, names);
    ParamsSingleMatch(FetchHelper(Braced(lits, names), request));
  }

  /** With two placeholders only the first name receives a value:
      `/things/{a}/parts/{b}` against `/things/1/parts/2` gives
      `{ a: "1", b: undefined }`. */
  lemma TwoSegmentParams(p0: string, n0: string, p1: string, n1: string, x: string, y: string, request: Request)
    requires PlainText(p0) && p0 != [] && PlainText(p1) && p1 != [] && p1[0] == '/'
    requires '}' !in n0 && '}' !in n1 && n0 != n1 && NoSlash(x) && NoSlash(y)
    requires request.pathname == p0 + x + p1 + y
    ensures Params(FetchHelper(p0 + "{" + n0 + "}" + p1 + "{" + n1 + "}", request))
         == map[n0 := Some(x), n1 := None]
  {
    TwoSegmentMatch(p0, n0, p1, n1, x, y);
    var es := ParamEntries([n0, n1], [Some(x)]);
    assert es == [(n0, Some(x)), (n1, None)];
    assert es[..1] == [(n0, Some(x))];
    assert es[..1][..0] == [];
    assert FromEntries(es) == FromEntries(es[..1])[n1 := None];
    assert FromEntries(es[..1]) == map[n0 := Some(x)];
  }

  /** A name used twice keeps the value paired with its second use:
      `/a/{x}/b/{x}` against `/a/1/b/2` gives `{ x: undefined }`. */
  lemma RepeatedNameParams(p0: string, n: string, p1: string, x: string, y: string, request: Request)
    requires PlainText(p0) && p0 != [] && PlainText(p1) && p1 != [] && p1[0] == '/'
    requires '}' !in n && NoSlash(x) && NoSlash(y)
    requires request.pathname == p0 + x + p1 + y
    ensures Params(FetchHelper(p0 + "{" + n + "}" + p1 + "{" + n + "}", request)) == map[n := None]
  {
    TwoSegmentMatch(p0, n, p1, n, x, y);
    var es := ParamEntries([n, n], [Some(x)]);
    assert es == [(n, Some(x)), (n, None)];
    assert es[..1] == [(n, Some(x))];
    assert es[..1][..0] == [];
    assert FromEntries(es) == FromEntries(es[..1])[n := None];
    assert FromEntries(es[..1]) == map[n := Some(x)];
  }

  /** `query()`: the search parameters flattened into one record. */
  function Query(h: FetchHelper): map<string, string> {
    FromEntries(h.request.search)
  }

  /** The record has exactly the query keys, and a repeated key keeps its
      last value. */
  lemma QueryLastWins(h: FetchHelper)
    ensures Query(h).Keys == KeysOf(h.request.search)
    ensures forall k, i :: IsLastWith(h.request.search, k, i) ==> Query(h)[k] == h.request.search[i].1
  {
    FromEntriesKeys(h.request.search);
    forall k, i | IsLastWith(h.request.search, k, i) ensures Query(h)[k] == h.request.search[i].1 {
      FromEntriesLastWins(h.request.search, k, i);
    }
  }

  /** `!contentType`: the header is absent or empty. */
  predicate MissingContentType(ct: Option<string>) {
    ct.None? || ct.value == ""
  }

  /** The 415 for a request without a Content-Type. */
  const NoContentTypeError: HttpError := NewSubclassError(Http415, "No Content-Type header")

  /** A form body as a flat record of string fields, last value wins. */
  function FormObject(entries: seq<(string, string)>): Json {
    StringObject(FromEntries(entries))
  }

  /** `bodyObject()`: the body decoded according to the exact Content-Type.
      A missing header or any other type (one with parameters such as
      `; charset=utf-8` included) is a 415; a decoder failure is rethrown
      as it is. */
  function BodyObject(h: FetchHelper): (r: Result<Json, Thrown>)
    ensures var ct := h.request.contentType;
      && (MissingContentType(ct) ==> r == Failure(Http(NoContentTypeError)))
      && (!MissingContentType(ct) && ct.value != ApplicationJson && ct.value != FormUrlEncoded ==>
            r == Failure(Http(NewSubclassError(Http415, "Unsupported Content-Type: " + ct.value))))
      && (ct == Some(ApplicationJson) ==>
            (r.Success? <==> h.request.jsonBody.Decoded?)
            && (r.Success? ==> r.value == h.request.jsonBody.value)
            && (r.Failure? ==> r.error == Plain(h.request.jsonBody.error)))
      && (ct == Some(FormUrlEncoded) ==>
            (r.Success? <==> h.request.formBody.Decoded?)
            && (r.Success? ==> r.value == FormObject(h.request.formBody.value))
            && (r.Failure? ==> r.error == Plain(h.request.formBody.error)))
    ensures r.Failure? && r.error.Http? ==> r.error.error.status == 415 && InstanceOf(r.error.error, Http415)
  {
    var ct := h.request.contentType;
    if MissingContentType(ct) then
      Failure(Http(NoContentTypeError))
    else if ct.value == ApplicationJson then
      match h.request.jsonBody
      case Decoded(v) => Success(v)
      case Undecodable(e) => Failure(Plain(e))
    else if ct.value == FormUrlEncoded then
      match h.request.formBody
      case Decoded(entries) => Success(FormObject(entries))
      case Undecodable(e) => Failure(Plain(e))
    else
      Failure(Http(NewSubclassError(Http415, "Unsupported Content-Type: " + ct.value)))
  }

  /** `respondWith()` of the plain helper passes the response through. */
  function RespondWith(h: FetchHelper, response: Response): (r: Result<Response, Thrown>)
    ensures r == Success(response)
  {
    Success(response)
  }

  /** `toJsonErrorResponse`: the error's status and a JSON body `{ message }`. */
  function ToJsonErrorResponse(e: HttpError): (r: Response)
    ensures r.status == e.status && r.contentType == Some(ApplicationJson)
    ensures r.body == Decoded(JObject(map["message" := JString(e.message)]))
  {
    JsonResponse(JObject(map["message" := JString(e.message)]), e.status)
  }

  /** `errorHandler(handler, toErrorResponse)`: a handler that never throws.
      A response is passed through unchanged; anything thrown is normalised
      by `toHttpError` and rendered. */
  function ErrorHandler(handler: Request -> Result<Response, Thrown>, toErrorResponse: HttpError -> Response): (wrapped: Request -> Response)
    ensures forall req :: handler(req).Success? ==> wrapped(req) == handler(req).value
    ensures forall req :: handler(req).Failure? ==> wrapped(req) == toErrorResponse(ToHttpError(handler(req).error))
  {
    req =>
      match handler(req)
      case Success(response) => response
      case Failure(thrown) => toErrorResponse(ToHttpError(thrown))
  }

  /** With the default renderer a failure becomes a JSON `{ message }`
      response whose status is the normalised error's status: that of the
      `HttpError` thrown, 500 for anything else. */
  lemma DefaultErrorResponse(handler: Request -> Result<Response, Thrown>, req: Request)
    requires handler(req).Failure?
    ensures var r := ErrorHandler(handler, ToJsonErrorResponse)(req);
      var t := handler(req).error;
      && r.contentType == Some(ApplicationJson)
      && r.body == Decoded(JObject(map["message" := JString(ToHttpError(t).message)]))
      && (t.Http? ==> r.status == t.error.status)
      && (!t.Http? ==> r.status == 500)
  {
  }
}
