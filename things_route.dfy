/** The example route `POST /things/{thingId}`: its schemas, its route
    configuration, its handler logic, and the outcomes the test suite
    expects of it. */
module ThingsRoute {
  import opened Wrappers
  import opened JsonValues
  import opened HttpErrors
  import opened FetchApi
  import opened OpenApi
  import opened Pipeline
  import Fetch
  import PathPattern
  import Entries

  predicate ContainsDigit(s: string) {
    exists i :: 0 <= i < |s| && '0' <= s[i] <= '9'
  }

  predicate ContainsLower(s: string) {
    exists i :: 0 <= i < |s| && 'a' <= s[i] <= 'z'
  }

  /** A string field whose text satisfies `ok`. */
  predicate FieldMatches(fields: map<string, Json>, key: string, ok: string -> bool) {
    key in fields && fields[key].JString? && ok(fields[key].s)
  }

  /** `z.object({ thingId: z.string().regex(/[\d]+/) })`: the regular
      expression is unanchored, so one digit anywhere suffices; unknown keys
      are stripped. */
  function ParseThingParams(v: Json): Option<Json> {
    match v
    case JObject(f) =>
      if FieldMatches(f, "thingId", ContainsDigit) then Some(JObject(map["thingId" := f["thingId"]])) else None
    case _ => None
  }

  /** The same with `thingId` optional. */
  function ParseThingQuery(v: Json): Option<Json> {
    match v
    case JObject(f) =>
      if "thingId" !in f then Some(JObject(map[]))
      else if FieldMatches(f, "thingId", ContainsDigit) then Some(JObject(map["thingId" := f["thingId"]]))
      else None
    case _ => None
  }

  /** `z.object({ name: z.string().regex(/[a-z]+/), description: ... })`. */
  function ParseThingBody(v: Json): Option<Json> {
    match v
    case JObject(f) =>
      if FieldMatches(f, "name", ContainsLower) && FieldMatches(f, "description", ContainsLower)
      then Some(JObject(map["name" := f["name"], "description" := f["description"]]))
      else None
    case _ => None
  }

  /** `zodToJsonSchema` of `z.string().regex(r)`: a string with `r`'s source
      as its pattern. */
  function PatternProperty(pattern: string): Json {
    JObject(map["type" := JString("string"), "pattern" := JString(pattern)])
  }

  const DigitsPattern: string := "[\\d]+"
  const LowerPattern: string := "[a-z]+"
  const Draft07: string := "http://json-schema.org/draft-07/schema#"

  /** The renderings `zodToJsonSchema` gives the three `z.object` schemas:
      no further keys allowed, and `required` lists the keys that are not
      optional. */
  const ThingParamsSchema: Schema := Schema(ParseThingParams, JObject(map[
    "type" := JString("object"),
    "properties" := JObject(map["thingId" := PatternProperty(DigitsPattern)]),
    "required" := JArray([JString("thingId")]),
    "additionalProperties" := JBool(false),
    "$schema" := JString(Draft07)]))

  const ThingQuerySchema: Schema := Schema(ParseThingQuery, JObject(map[
    "type" := JString("object"),
    "properties" := JObject(map["thingId" := PatternProperty(DigitsPattern)]),
    "additionalProperties" := JBool(false),
    "$schema" := JString(Draft07)]))

  const ThingBodySchema: Schema := Schema(ParseThingBody, JObject(map[
    "type" := JString("object"),
    "properties" := JObject(map["name" := PatternProperty(LowerPattern), "description" := PatternProperty(LowerPattern)]),
    "required" := JArray([JString("name"), JString("description")]),
    "additionalProperties" := JBool(false),
    "$schema" := JString(Draft07)]))

  const ThingPath: string := "/things/{thingId}"

  const ThingRoute: RouteConfig := RouteConfig(
    ThingPath,
    Some(RequestConfig(
      Some(ThingParamsSchema),
      Some(ThingQuerySchema),
      Some(BodyConfig(map[
        ApplicationJson := MediaType(Some(ThingBodySchema)),
        FormUrlEncoded := MediaType(Some(ThingBodySchema)),
        "multipart/form-data" := MediaType(Some(ThingBodySchema))])))),
    map[
      200 := ResponseConfig("Create a thing", Some(map[ApplicationJson := MediaType(Some(ThingBodySchema))])),
      404 := Response404,
      415 := Response415,
      422 := Response422,
      500 := Response500])

  const BadTypeThingId: string := "2"

  /** The handler's logic: echo the body, except for `thingId` "2", which
      answers `{ foo: "bar" }` against the schema on purpose. */
  function ThingLogic(params: Json, body: Json): Result<Response, Thrown> {
    if params.JObject? && "thingId" in params.fields && params.fields["thingId"] == JString(BadTypeThingId)
    then Success(JsonResponse(JObject(map["foo" := JString("bar")]), 200))
    else Success(JsonResponse(body, 200))
  }

  function Thing(name: string, description: string): Json {
    JObject(map["name" := JString(name), "description" := JString(description)])
  }

  const GoodThing: Json := Thing("mything", "besthingever")
  const BadThing: Json := Thing("MYTHING", "WORSTTHINGEVER")

  const NotForm: PlainError := PlainError("TypeError", "Could not parse content as FormData.")
  const NotJson: PlainError := PlainError("SyntaxError", "Unexpected token")

  /** `POST /things/{id}` with a JSON body. */
  function JsonRequest(id: string, thing: Json): Request {
    Request("/things/" + id, [], Some(ApplicationJson), Decoded(thing), Undecodable(NotForm))
  }

  /** `POST /things/{id}` with a form-encoded body. */
  function FormRequest(id: string, fields: seq<(string, string)>): Request {
    Request("/things/" + id, [], Some(FormUrlEncoded), Undecodable(NotJson), Decoded(fields))
  }

  /** `POST /things/{id}` with another Content-Type. */
  function OtherRequest(id: string, contentType: string): Request {
    Request("/things/" + id, [], Some(contentType), Undecodable(NotJson), Undecodable(NotForm))
  }

  function Run(request: Request, stringify: Json -> string): Response {
    Serve(ThingRoute, stringify, ThingLogic, request)
  }

  /** What the pipeline looks up in the route configuration. */
  lemma ThingRouteLookups()
    ensures ThingRoute.path == ThingPath
    ensures ParamsSchema(ThingRoute) == Some(ThingParamsSchema)
    ensures BodySchema(ThingRoute, ApplicationJson) == Some(ThingBodySchema)
    ensures BodySchema(ThingRoute, FormUrlEncoded) == Some(ThingBodySchema)
    ensures 200 in ThingRoute.responses
    ensures ThingRoute.responses[200].content == Some(map[ApplicationJson := MediaType(Some(ThingBodySchema))])
  {
  }

  /** The statuses the route declares. */
  lemma ThingRouteStatuses()
    ensures ThingRoute.responses.Keys == {200, 404, 415, 422, 500}
  {
  }

  lemma ThingLogicNeverThrows()
    ensures forall params, body :: ThingLogic(params, body).Success?
    ensures ThrowsErrorStatusesOnly(ThingLogic)
  {
  }

  lemma ThingLogicEchoes(id: string, body: Json)
    requires id != BadTypeThingId
    ensures ThingLogic(JObject(map["thingId" := JString(id)]), body) == Success(JsonResponse(body, 200))
  {
    assert JString(id) != JString(BadTypeThingId);
  }

  /** The path parameters of every test request: `{ thingId: id }`. */
  lemma ThingParams(id: string, request: Request)
    requires PathPattern.NoSlash(id) && request.pathname == "/things/" + id
    ensures Fetch.Params(Fetch.FetchHelper(ThingPath, request)) == map["thingId" := Some(id)]
  {
    assert ThingPath == "/things/" + "{" + "thingId" + "}";
    assert PathPattern.PlainText("/things/");
    Fetch.OneSegmentParams("/things/", "thingId", id, request);
  }

  /** The record `params()` hands to the schema: `{ thingId: id }`. */
  lemma ThingRawParams(id: string, h: OpenAPIHelper)
    requires PathPattern.NoSlash(id) && h.request.pathname == "/things/" + id
    requires h.route.path == ThingPath
    ensures RawParams(h) == JObject(map["thingId" := JString(id)])
  {
    ThingParams(id, h.request);
    var m := map["thingId" := Some(id)];
    assert Fetch.Params(Inner(h)) == m;
    assert DefinedFields(m).fields == map["thingId" := JString(id)];
  }

  /** The parameter schema accepts `{ thingId: id }` exactly when `id`
      holds a digit, and returns it unchanged. */
  lemma ThingParamsParse(id: string)
    ensures var raw := JObject(map["thingId" := JString(id)]);
      ParseThingParams(raw) == if ContainsDigit(id) then Some(raw) else None
  {
    var raw := JObject(map["thingId" := JString(id)]);
    assert map["thingId" := raw.fields["thingId"]] == raw.fields;
  }

  /** `params()` of a test request: `{ thingId: id }` when `id` holds a
      digit, a 404 otherwise. */
  lemma ThingParamsValidated(id: string, h: OpenAPIHelper)
    requires PathPattern.NoSlash(id) && h.request.pathname == "/things/" + id
    requires h.route.path == ThingPath && ParamsSchema(h.route) == Some(ThingParamsSchema)
    ensures ContainsDigit(id) ==> Params(h) == Success(JObject(map["thingId" := JString(id)]))
    ensures !ContainsDigit(id) ==> ParamsSchema(h.route).value.safeParse(RawParams(h)).None?
  {
    ThingRawParams(id, h);
    ThingParamsParse(id);
  }

  /** `bodyObject()` of a JSON test request: the thing itself when both
      fields hold a lower-case letter, a schema failure otherwise. */
  lemma ThingBodyValidated(h: OpenAPIHelper, thing: Json)
    requires h.request.contentType == Some(ApplicationJson) && h.request.jsonBody == Decoded(thing)
    requires BodySchema(h.route, ApplicationJson) == Some(ThingBodySchema)
    requires thing.JObject? && thing.fields.Keys == {"name", "description"}
    ensures FieldMatches(thing.fields, "name", ContainsLower) && FieldMatches(thing.fields, "description", ContainsLower)
      <==> BodyObject(h) == Success(thing)
    ensures !(FieldMatches(thing.fields, "name", ContainsLower) && FieldMatches(thing.fields, "description", ContainsLower))
      ==> BodyObject(h).Failure? && BodyObject(h).error.Http? && BodyObject(h).error.error.status == 422
  {
    assert Fetch.BodyObject(Inner(h)) == Success(thing);
    assert !Falsy(thing);
    if FieldMatches(thing.fields, "name", ContainsLower) && FieldMatches(thing.fields, "description", ContainsLower) {
      assert map["name" := thing.fields["name"], "description" := thing.fields["description"]] == thing.fields;
      assert ParseThingBody(thing) == Some(thing);
    }
  }

  lemma OneHasDigit() ensures ContainsDigit("1") && ContainsDigit("2") {
    assert "1"[0] == '1';
    assert "2"[0] == '2';
  }

  lemma GoodThingFields()
    ensures FieldMatches(GoodThing.fields, "name", ContainsLower)
    ensures FieldMatches(GoodThing.fields, "description", ContainsLower)
  {
    assert "mything"[0] == 'm';
    assert "besthingever"[0] == 'b';
  }

  /** The parts of the route configuration the scenarios below consult. */
  ghost predicate ThingLike(route: RouteConfig) {
    && route.path == ThingPath
    && ParamsSchema(route) == Some(ThingParamsSchema)
    && BodySchema(route, ApplicationJson) == Some(ThingBodySchema)
    && BodySchema(route, FormUrlEncoded) == Some(ThingBodySchema)
    && 200 in route.responses
    && route.responses[200].content == Some(map[ApplicationJson := MediaType(Some(ThingBodySchema))])
  }

  lemma ThingRouteIsThingLike()
    ensures ThingLike(ThingRoute)
  {
    ThingRouteLookups();
  }

  /** A JSON request whose parameters and body validate reaches the logic;
      the client receives what the logic returned when the response body
      passes the schema declared for status 200. */
  lemma JsonRequestReachesLogic(route: RouteConfig, stringify: Json -> string, id: string, thing: Json)
    requires ThingLike(route)
    requires PathPattern.NoSlash(id) && ContainsDigit(id)
    requires thing.JObject? && thing.fields.Keys == {"name", "description"}
    requires FieldMatches(thing.fields, "name", ContainsLower) && FieldMatches(thing.fields, "description", ContainsLower)
    ensures ReachesLogic(route, stringify, ThingLogic, JsonRequest(id, thing),
                         ThingLogic(JObject(map["thingId" := JString(id)]), thing).value)
  {
    var h := OpenAPIHelper(route, JsonRequest(id, thing), stringify);
    ThingParamsValidated(id, h);
    ThingBodyValidated(h, thing);
  }

  /** A valid JSON request is answered with its own body. */
  lemma GoodJsonRequestEchoed(stringify: Json -> string)
    ensures Run(JsonRequest("1", GoodThing), stringify) == JsonResponse(GoodThing, 200)
  {
    ThingRouteIsThingLike();
    JsonRequestEchoed(ThingRoute, stringify);
  }

  lemma JsonRequestEchoed(route: RouteConfig, stringify: Json -> string)
    requires ThingLike(route)
    ensures Serve(route, stringify, ThingLogic, JsonRequest("1", GoodThing)) == JsonResponse(GoodThing, 200)
  {
    OneHasDigit();
    GoodThingFields();
    JsonRequestReachesLogic(route, stringify, "1", GoodThing);
    ThingLogicEchoes("1", GoodThing);
    EchoAccepted(route, stringify, JsonRequest("1", GoodThing), GoodThing);
  }

  /** The body schema accepts a thing whose two fields hold a lower-case
      letter and returns it unchanged. */
  lemma ThingBodyParse(thing: Json)
    requires thing.JObject? && thing.fields.Keys == {"name", "description"}
    requires FieldMatches(thing.fields, "name", ContainsLower) && FieldMatches(thing.fields, "description", ContainsLower)
    ensures ParseThingBody(thing) == Some(thing)
  {
    assert map["name" := thing.fields["name"], "description" := thing.fields["description"]] == thing.fields;
  }

  /** The 200 response echoing a valid thing passes `respondWith()`. */
  lemma EchoAccepted(route: RouteConfig, stringify: Json -> string, request: Request, thing: Json)
    requires ThingLike(route)
    requires ReachesLogic(route, stringify, ThingLogic, request, JsonResponse(thing, 200))
    requires thing.JObject? && thing.fields.Keys == {"name", "description"}
    requires FieldMatches(thing.fields, "name", ContainsLower) && FieldMatches(thing.fields, "description", ContainsLower)
    ensures Serve(route, stringify, ThingLogic, request) == JsonResponse(thing, 200)
  {
    var h := OpenAPIHelper(route, request, stringify);
    var response := JsonResponse(thing, 200);
    ThingBodyParse(thing);
    assert RespondWith(h, response) == Success(response);
    assert Handle(route, stringify, ThingLogic, request) == Success(response);
    SuccessPassesResponseThrough(route, stringify, ThingLogic, request);
  }

  const GoodForm: seq<(string, string)> := [("name", "mything"), ("description", "besthingever")]

  /** The form fields of `GoodForm` read as the object `GoodThing`. */
  lemma GoodFormObject()
    ensures Fetch.FormObject(GoodForm) == GoodThing
  {
    var first := GoodForm[..1];
    assert first[..0] == [];
    assert first == [("name", "mything")];
    assert Entries.FromEntries(first) == map[][first[0].0 := first[0].1];
    var m := Entries.FromEntries(GoodForm);
    assert m == Entries.FromEntries(first)[GoodForm[1].0 := GoodForm[1].1];
    assert StringObject(m).fields == GoodThing.fields;
  }

  /** A form request whose parameters and fields validate reaches the logic
      with the fields read as an object. */
  lemma FormRequestReachesLogic(route: RouteConfig, stringify: Json -> string, id: string)
    requires ThingLike(route)
    requires PathPattern.NoSlash(id) && ContainsDigit(id)
    ensures ReachesLogic(route, stringify, ThingLogic, FormRequest(id, GoodForm),
                         ThingLogic(JObject(map["thingId" := JString(id)]), GoodThing).value)
  {
    var h := OpenAPIHelper(route, FormRequest(id, GoodForm), stringify);
    ThingParamsValidated(id, h);
    GoodFormObject();
    GoodThingFields();
    assert Fetch.BodyObject(Inner(h)) == Success(GoodThing);
    ThingBodyParse(GoodThing);
    assert BodyObject(h) == Success(GoodThing);
  }

  /** A valid form-encoded request is answered with the same fields as a
      JSON object. */
  lemma GoodFormRequestEchoed(stringify: Json -> string)
    ensures Run(FormRequest("1", GoodForm), stringify) == JsonResponse(GoodThing, 200)
  {
    ThingRouteIsThingLike();
    FormRequestEchoed(ThingRoute, stringify);
  }

  lemma FormRequestEchoed(route: RouteConfig, stringify: Json -> string)
    requires ThingLike(route)
    ensures Serve(route, stringify, ThingLogic, FormRequest("1", GoodForm)) == JsonResponse(GoodThing, 200)
  {
    OneHasDigit();
    GoodThingFields();
    FormRequestReachesLogic(route, stringify, "1");
    ThingLogicEchoes("1", GoodThing);
    EchoAccepted(route, stringify, FormRequest("1", GoodForm), GoodThing);
  }

  /** `thingId` "xyz" fails the parameter schema: 404. */
  lemma BadParamsIs404(stringify: Json -> string)
    ensures Run(JsonRequest("xyz", GoodThing), stringify).status == 404
    ensures Rejects(ThingRoute, stringify, ThingLogic, JsonRequest("xyz", GoodThing), Http404)
  {
    var request := JsonRequest("xyz", GoodThing);
    ThingRouteIsThingLike();
    assert !ContainsDigit("xyz");
    ThingParamsValidated("xyz", OpenAPIHelper(ThingRoute, request, stringify));
    ParamsRejectedIs404(ThingRoute, stringify, ThingLogic, request);
  }

  /** A JSON body whose fields do not both hold a lower-case letter fails
      the body schema: 422. */
  lemma JsonBodyRejected(route: RouteConfig, stringify: Json -> string, id: string, thing: Json)
    requires ThingLike(route)
    requires PathPattern.NoSlash(id) && ContainsDigit(id)
    requires thing.JObject? && thing.fields.Keys == {"name", "description"}
    requires !(FieldMatches(thing.fields, "name", ContainsLower) && FieldMatches(thing.fields, "description", ContainsLower))
    ensures Serve(route, stringify, ThingLogic, JsonRequest(id, thing)).status == 422
    ensures Rejects(route, stringify, ThingLogic, JsonRequest(id, thing), Http422)
  {
    var request := JsonRequest(id, thing);
    var h := OpenAPIHelper(route, request, stringify);
    ThingParamsValidated(id, h);
    assert ParseThingBody(thing).None?;
    assert Fetch.BodyObject(Inner(h)) == Success(thing);
    BodyRejectedIs422(route, stringify, ThingLogic, request);
  }

  /** An upper-case body fails the body schema: 422. */
  lemma BadBodyIs422(stringify: Json -> string)
    ensures Run(JsonRequest("1", BadThing), stringify).status == 422
    ensures Rejects(ThingRoute, stringify, ThingLogic, JsonRequest("1", BadThing), Http422)
  {
    ThingRouteIsThingLike();
    OneHasDigit();
    assert !ContainsLower("MYTHING");
    JsonBodyRejected(ThingRoute, stringify, "1", BadThing);
  }

  /** A CSV body: 415. */
  lemma CsvIs415(stringify: Json -> string)
    ensures Run(OtherRequest("1", "text/csv"), stringify).status == 415
    ensures Rejects(ThingRoute, stringify, ThingLogic, OtherRequest("1", "text/csv"), Http415)
  {
    var request := OtherRequest("1", "text/csv");
    ThingRouteIsThingLike();
    OneHasDigit();
    ThingParamsValidated("1", OpenAPIHelper(ThingRoute, request, stringify));
    UnsupportedMediaTypeIs415(ThingRoute, stringify, ThingLogic, request);
  }

  /** A multipart body carries a `boundary` parameter in its Content-Type,
      which the exact comparison refuses: 415, although the route registers
      a schema for `multipart/form-data`. */
  lemma MultipartIs415(stringify: Json -> string)
    ensures Run(OtherRequest("1", "multipart/form-data; boundary=x"), stringify).status == 415
    ensures Rejects(ThingRoute, stringify, ThingLogic, OtherRequest("1", "multipart/form-data; boundary=x"), Http415)
  {
    var request := OtherRequest("1", "multipart/form-data; boundary=x");
    ThingRouteIsThingLike();
    OneHasDigit();
    ThingParamsValidated("1", OpenAPIHelper(ThingRoute, request, stringify));
    UnsupportedMediaTypeIs415(ThingRoute, stringify, ThingLogic, request);
  }

  const Foo: Json := JObject(map["foo" := JString("bar")])

  /** For `thingId` "2" the logic answers `{ foo: "bar" }`. */
  lemma FooAnswered(route: RouteConfig, stringify: Json -> string)
    requires ThingLike(route)
    ensures ReachesLogic(route, stringify, ThingLogic, JsonRequest(BadTypeThingId, GoodThing), JsonResponse(Foo, 200))
  {
    OneHasDigit();
    GoodThingFields();
    JsonRequestReachesLogic(route, stringify, BadTypeThingId, GoodThing);
  }

  /** ... which the schema declared for status 200 refuses: 500. */
  lemma FooResponseRejected(route: RouteConfig, stringify: Json -> string)
    requires ThingLike(route)
    ensures Serve(route, stringify, ThingLogic, JsonRequest(BadTypeThingId, GoodThing)).status == 500
    ensures Rejects(route, stringify, ThingLogic, JsonRequest(BadTypeThingId, GoodThing), Http500)
  {
    FooAnswered(route, stringify);
    assert ParseThingBody(Foo).None?;
    ResponseRejectedIs500(route, stringify, ThingLogic, JsonRequest(BadTypeThingId, GoodThing), JsonResponse(Foo, 200));
  }

  lemma BadResponseIs500(stringify: Json -> string)
    ensures Run(JsonRequest(BadTypeThingId, GoodThing), stringify).status == 500
    ensures Rejects(ThingRoute, stringify, ThingLogic, JsonRequest(BadTypeThingId, GoodThing), Http500)
  {
    ThingRouteIsThingLike();
    FooResponseRejected(ThingRoute, stringify);
  }

  /** The handler's logic never throws, so the route only ever answers with
      a declared status or one of the four error statuses. */
  lemma ThingStatuses(request: Request, stringify: Json -> string)
    ensures Run(request, stringify).status in {200, 404, 415, 422, 500}
  {
    ThingLogicNeverThrows();
    StatusIsDeclaredOrError(ThingRoute, stringify, ThingLogic, request);
    ThingRouteStatuses();
  }
}
