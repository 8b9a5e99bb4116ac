/** `OpenAPIHelper` of src/openapi/index.ts: the request helper scoped to
    one OpenAPI route, validating path parameters, query, request body and
    response against the route's schemas, plus the shared error-response
    configurations. */
module OpenApi {
  import opened Wrappers
  import opened JsonValues
  import opened HttpErrors
  import opened FetchApi
  import opened Text
  import Fetch

  /** A schema: `safeParse`, which returns the parsed (possibly coerced)
      data or fails, and the JSON Schema rendering of it
      (`zodToJsonSchema`). */
  datatype Schema = Schema(safeParse: Json -> Option<Json>, jsonSchema: Json)

  /** An entry of a `content` record: its schema may be left out. */
  datatype MediaType = MediaType(schema: Option<Schema>)

  datatype BodyConfig = BodyConfig(content: map<string, MediaType>)

  datatype RequestConfig = RequestConfig(params: Option<Schema>, query: Option<Schema>, body: Option<BodyConfig>)

  datatype ResponseConfig = ResponseConfig(description: string, content: Option<map<string, MediaType>>)

  /** The parts of an OpenAPI route the helper reads. */
  datatype RouteConfig = RouteConfig(path: string, request: Option<RequestConfig>, responses: map<nat, ResponseConfig>)

  /** Which object a validation is about; it names the object in messages. */
  datatype ObjectType = ParamsObject | QueryObject | RequestBody | ResponseBody {
    function Name(): string {
      match this
      case ParamsObject => "params"
      case QueryObject => "query"
      case RequestBody => "requestBody"
      case ResponseBody => "responseBody"
    }
  }

  /** A helper for one request against one route. `stringify` stands for
      `JSON.stringify(value, null, 2)`. */
  datatype OpenAPIHelper = OpenAPIHelper(route: RouteConfig, request: Request, stringify: Json -> string)

  /** The plain helper it wraps, built on the route's path. */
  function Inner(h: OpenAPIHelper): Fetch.FetchHelper {
    Fetch.FetchHelper(h.route.path, h.request)
  }

  /** The message of a failed validation. */
  function ValidationMessage(t: ObjectType, valueJson: string, schemaJson: string): string {
    "Error validating " + t.Name() + ": " + valueJson + "\n\nSchema: " + schemaJson
  }

  /** The message names both the offending value and the expected schema. */
  lemma ValidationMessageMentions(t: ObjectType, valueJson: string, schemaJson: string)
    ensures Infix(valueJson, ValidationMessage(t, valueJson, schemaJson))
    ensures Infix(schemaJson, ValidationMessage(t, valueJson, schemaJson))
  {
    var head := "Error validating " + t.Name() + ": ";
    var m := ValidationMessage(t, valueJson, schemaJson);
    InfixAt(valueJson, head, "\n\nSchema: " + schemaJson);
    assert m == head + valueJson + ("\n\nSchema: " + schemaJson);
    InfixAt(schemaJson, head + valueJson + "\n\nSchema: ", "");
    assert m == head + valueJson + "\n\nSchema: " + schemaJson + "";
  }

  /** `validateObject`: a missing schema is a plain `HttpError` 500 before
      anything is validated; otherwise the schema's parsed data, or an
      error of the caller's class whose message shows the value and the
      schema. */
  function ValidateObject(h: OpenAPIHelper, schema: Option<Schema>, value: Json, t: ObjectType, errorClass: Subclass): (r: Result<Json, HttpError>)
    requires !errorClass.Base?
    ensures schema.None? ==> r == Failure(NewHttpError("No " + t.Name() + " schema", 500))
    ensures schema.Some? ==> (r.Success? <==> schema.value.safeParse(value).Some?)
    ensures schema.Some? && r.Success? ==> r.value == schema.value.safeParse(value).value
    ensures schema.Some? && r.Failure? ==>
      && InstanceOf(r.error, errorClass) && StatusFits(r.error)
      && r.error.message == ValidationMessage(t, h.stringify(value), h.stringify(schema.value.jsonSchema))
  {
    match schema
    case None => Failure(NewHttpError("No " + t.Name() + " schema", 500))
    case Some(s) =>
      match s.safeParse(value)
      case Some(data) => Success(data)
      case None =>
        Failure(NewSubclassError(errorClass, ValidationMessage(t, h.stringify(value), h.stringify(s.jsonSchema))))
  }

  function ParamsSchema(route: RouteConfig): Option<Schema> {
    if route.request.Some? then route.request.value.params else None
  }

  function QuerySchema(route: RouteConfig): Option<Schema> {
    if route.request.Some? then route.request.value.query else None
  }

  /** `routeConfig.request?.body?.content[contentType]?.schema`. */
  function BodySchema(route: RouteConfig, contentType: string): Option<Schema> {
    if route.request.Some? && route.request.value.body.Some?
       && contentType in route.request.value.body.value.content
    then route.request.value.body.value.content[contentType].schema
    else None
  }

  /** The value `params()` hands to the schema: the extracted record. */
  function RawParams(h: OpenAPIHelper): Json {
    DefinedFields(Fetch.Params(Inner(h)))
  }

  /** `params()`: the extracted parameters validated; a failure is a 404. */
  function Params(h: OpenAPIHelper): (r: Result<Json, Thrown>)
    ensures ParamsSchema(h.route).Some? ==>
      && (r.Success? <==> ParamsSchema(h.route).value.safeParse(RawParams(h)).Some?)
      && (r.Success? ==> r.value == ParamsSchema(h.route).value.safeParse(RawParams(h)).value)
      && (r.Failure? ==> r.error.Http? && r.error.error.status == 404 && InstanceOf(r.error.error, Http404))
    ensures ParamsSchema(h.route).None? ==> r == Failure(Http(NewHttpError("No params schema", 500)))
  {
    assert "No " + ParamsObject.Name() + " schema" == "No params schema";
    match ValidateObject(h, ParamsSchema(h.route), RawParams(h), ParamsObject, Http404)
    case Success(v) => Success(v)
    case Failure(e) => Failure(Http(e))
  }

  /** The value `query()` hands to the schema: the flattened search
      parameters. */
  function RawQuery(h: OpenAPIHelper): Json {
    StringObject(Fetch.Query(Inner(h)))
  }

  /** `query()`: the flattened query validated; a failure is a 404. */
  function Query(h: OpenAPIHelper): (r: Result<Json, Thrown>)
    ensures QuerySchema(h.route).Some? ==>
      && (r.Success? <==> QuerySchema(h.route).value.safeParse(RawQuery(h)).Some?)
      && (r.Success? ==> r.value == QuerySchema(h.route).value.safeParse(RawQuery(h)).value)
      && (r.Failure? ==> r.error.Http? && r.error.error.status == 404 && InstanceOf(r.error.error, Http404))
    ensures QuerySchema(h.route).None? ==> r == Failure(Http(NewHttpError("No query schema", 500)))
  {
    assert "No " + QueryObject.Name() + " schema" == "No query schema";
    match ValidateObject(h, QuerySchema(h.route), RawQuery(h), QueryObject, Http404)
    case Success(v) => Success(v)
    case Failure(e) => Failure(Http(e))
  }

  /** `bodyObject()`: the decoded body; a falsy body is returned as it is;
      otherwise the schema registered for the exact Content-Type decides:
      none is a 415, a failing one a 422. */
  function BodyObject(h: OpenAPIHelper): (r: Result<Json, Thrown>)
    // the media-type checks of the plain helper come first
    ensures Fetch.BodyObject(Inner(h)).Failure? ==> r == Fetch.BodyObject(Inner(h))
    ensures Fetch.BodyObject(Inner(h)).Success? ==>
      var body := Fetch.BodyObject(Inner(h)).value;
      var schema := BodySchema(h.route, h.request.contentType.value);
      && (Falsy(body) ==> r == Success(body))
      && (!Falsy(body) && schema.None? ==>
            r == Failure(Http(NewSubclassError(Http415, "No schema for Content-Type: " + h.request.contentType.value))))
      && (!Falsy(body) && schema.Some? ==>
            && (r.Success? <==> schema.value.safeParse(body).Some?)
            && (r.Success? ==> r.value == schema.value.safeParse(body).value)
            && (r.Failure? ==> r.error.Http? && r.error.error.status == 422 && InstanceOf(r.error.error, Http422)))
  {
    var body :- Fetch.BodyObject(Inner(h));
    if Falsy(body) then Success(body)
    else
      var ct := h.request.contentType;
      if Fetch.MissingContentType(ct) then
        // cannot happen: the plain helper has already refused this request
        Failure(Http(Fetch.NoContentTypeError))
      else
        match BodySchema(h.route, ct.value)
        case None => Failure(Http(NewSubclassError(Http415, "No schema for Content-Type: " + ct.value)))
        case Some(s) =>
          match ValidateObject(h, Some(s), body, RequestBody, Http422)
          case Success(v) => Success(v)
          case Failure(e) => Failure(Http(e))
  }

  /** The error `responseConfig.content[contentType].schema` throws when the
      content record has no `application/json` entry. */
  const MissingJsonContent: PlainError :=
    PlainError("TypeError", "Cannot read properties of undefined (reading 'schema')")

  function UndeclaredStatusMessage(status: nat, declared: set<nat>): string {
    "No response config for status " + NatToString(status)
      + ". Allowed statuses: " + JoinStatuses(SortedStatuses(declared))
  }

  /** `respondWith()`: the response is returned unchanged (only a copy of it
      is read) when its status is declared and, for a JSON response, its
      body satisfies the declared schema. Every failure reads as a 500. */
  function RespondWith(h: OpenAPIHelper, response: Response): (r: Result<Response, Thrown>)
    ensures r.Success? ==> r.value == response
    ensures r.Failure? ==> ToHttpError(r.error).status == 500
    ensures response.status !in h.route.responses ==>
      r == Failure(Http(NewSubclassError(Http500, UndeclaredStatusMessage(response.status, h.route.responses.Keys))))
    ensures response.status in h.route.responses && response.contentType != Some(ApplicationJson) ==>
      r == Success(response)
    ensures response.status in h.route.responses && response.contentType == Some(ApplicationJson) ==>
      var content := h.route.responses[response.status].content;
      && (content.None? ==> r.Failure? && r.error.Http? && InstanceOf(r.error.error, Http500))
      && (content.Some? && ApplicationJson !in content.value ==> r == Failure(Plain(MissingJsonContent)))
      && (content.Some? && ApplicationJson in content.value && content.value[ApplicationJson].schema.None? ==>
            r.Failure? && ToHttpError(r.error).status == 500)
      && (content.Some? && ApplicationJson in content.value && content.value[ApplicationJson].schema.Some? ==>
            && (r.Success? <==> response.body.Decoded?
                                && content.value[ApplicationJson].schema.value.safeParse(response.body.value).Some?)
            && (response.body.Decoded? && r.Failure? ==> r.error.Http? && InstanceOf(r.error.error, Http500)))
  {
    var status := response.status;
    if status !in h.route.responses then
      Failure(Http(NewSubclassError(Http500, UndeclaredStatusMessage(status, h.route.responses.Keys))))
    else
      var config := h.route.responses[status];
      if response.contentType == Some(ApplicationJson) then
        if config.content.None? then
          Failure(Http(NewSubclassError(Http500, "No response config content for status " + NatToString(status))))
        else if ApplicationJson !in config.content.value then
          Failure(Plain(MissingJsonContent))
        else
          var schema := config.content.value[ApplicationJson].schema;
          // try { ... } catch (error) { throw toHttpError(error) }
          match response.body
          case Undecodable(e) => Failure(Http(ToHttpError(Plain(e))))
          case Decoded(data) =>
            match ValidateObject(h, schema, data, ResponseBody, Http500)
            case Failure(e) => Failure(Http(ToHttpError(Http(e))))
            case Success(_) => Success(response)
      else Success(response)
  }

  /** The message for an undeclared status names that status and every
      declared status. */
  lemma UndeclaredStatusListsAllowed(status: nat, declared: set<nat>)
    ensures Infix(NatToString(status), UndeclaredStatusMessage(status, declared))
    ensures forall x :: x in declared ==> Infix(NatToString(x), UndeclaredStatusMessage(status, declared))
  {
    var head := "No response config for status ";
    var tail := ". Allowed statuses: " + JoinStatuses(SortedStatuses(declared));
    InfixAt(NatToString(status), head, tail);
    assert head + NatToString(status) + tail == UndeclaredStatusMessage(status, declared);
    var listed := SortedStatuses(declared);
    forall x | x in declared
      ensures Infix(NatToString(x), UndeclaredStatusMessage(status, declared))
    {
      var i :| 0 <= i < |listed| && listed[i] == x;
      JoinShowsEach(listed, i);
      InfixWithin(NatToString(x), head + NatToString(status) + ". Allowed statuses: ", JoinStatuses(listed), "");
      assert head + NatToString(status) + ". Allowed statuses: " + JoinStatuses(listed) + ""
          == UndeclaredStatusMessage(status, declared);
    }
  }

  // ---------------------------------------------------------------------
  // The shared error responses

  /** `z.object({ message: z.string() })`: an object with a string
      `message`; other keys are stripped. */
  function ParseErrorBody(v: Json): Option<Json> {
    match v
    case JObject(fields) =>
      if "message" in fields && fields["message"].JString?
      then Some(JObject(map["message" := fields["message"]]))
      else None
    case _ => None
  }

  /** The JSON Schema of `ErrorSchema`. */
  const ErrorJsonSchema: Json := JObject(map[
    "type" := JString("object"),
    "properties" := JObject(map["message" := JObject(map["type" := JString("string")])]),
    "required" := JArray([JString("message")]),
    "additionalProperties" := JBool(false),
    "$schema" := JString("http://json-schema.org/draft-07/schema#")])

  const ErrorSchema: Schema := Schema(ParseErrorBody, ErrorJsonSchema)

  /** The configuration shared by the four error responses: a JSON body
      validated by `ErrorSchema`. */
  function ErrorResponseConfig(description: string): ResponseConfig {
    ResponseConfig(description, Some(map[ApplicationJson := MediaType(Some(ErrorSchema))]))
  }

  const Response404: ResponseConfig := ErrorResponseConfig("Not Found")
  const Response415: ResponseConfig := ErrorResponseConfig("Unsupported Media Type")
  const Response422: ResponseConfig := ErrorResponseConfig("Unprocessable Entity")
  const Response500: ResponseConfig := ErrorResponseConfig("Internal Server Error")

  /** What the default renderer makes of an error passes the shared error
      response of its status: a route that declares `Response404` ...
      `Response500` accepts its own error responses. */
  lemma ErrorResponsesConform(h: OpenAPIHelper, e: HttpError)
    requires e.status in h.route.responses
    requires h.route.responses[e.status] in {Response404, Response415, Response422, Response500}
    ensures RespondWith(h, Fetch.ToJsonErrorResponse(e)) == Success(Fetch.ToJsonErrorResponse(e))
  {
    var body := JObject(map["message" := JString(e.message)]);
    assert ParseErrorBody(body).Some?;
  }
}
