/** The request pipeline of an OpenAPI route handler, in the order the
    example route uses: path parameters, then the body, then the business
    logic, then `respondWith`; `errorHandler` turns anything thrown on the
    way into an error response. */
module Pipeline {
  import opened Wrappers
  import opened JsonValues
  import opened HttpErrors
  import opened FetchApi
  import opened OpenApi
  import Fetch

  /** The business logic: from the validated parameters and body to a
      response, or a thrown value. */
  type Logic = (Json, Json) -> Result<Response, Thrown>

  /** The handler: validate, run the logic, validate its response. */
  function Handle(route: RouteConfig, stringify: Json -> string, logic: Logic, request: Request): Result<Response, Thrown> {
    var h := OpenAPIHelper(route, request, stringify);
    var params :- Params(h);
    var body :- BodyObject(h);
    var response :- logic(params, body);
    RespondWith(h, response)
  }

  /** `errorHandler(handler)` with the default renderer, applied to a request. */
  function Serve(route: RouteConfig, stringify: Json -> string, logic: Logic, request: Request): Response {
    Fetch.ErrorHandler(req => Handle(route, stringify, logic, req), Fetch.ToJsonErrorResponse)(request)
  }

  /** The handler rejects the request by throwing an instance of `sub`. */
  predicate Rejects(route: RouteConfig, stringify: Json -> string, logic: Logic, request: Request, sub: Subclass) {
    var r := Handle(route, stringify, logic, request);
    r.Failure? && r.error.Http? && InstanceOf(r.error.error, sub)
  }

  /** Path parameters that fail their schema give a 404, whatever the body. */
  lemma ParamsRejectedIs404(route: RouteConfig, stringify: Json -> string, logic: Logic, request: Request)
    requires ParamsSchema(route).Some?
    requires ParamsSchema(route).value.safeParse(RawParams(OpenAPIHelper(route, request, stringify))).None?
    ensures Rejects(route, stringify, logic, request, Http404)
    ensures Serve(route, stringify, logic, request).status == 404
  {
  }

  /** With valid parameters, a Content-Type other than the two supported
      ones is a 415, even if some schema would accept the body. */
  lemma UnsupportedMediaTypeIs415(route: RouteConfig, stringify: Json -> string, logic: Logic, request: Request)
    requires Params(OpenAPIHelper(route, request, stringify)).Success?
    requires request.contentType.Some? && request.contentType.value != ""
    requires request.contentType.value != ApplicationJson && request.contentType.value != FormUrlEncoded
    ensures Rejects(route, stringify, logic, request, Http415)
    ensures Serve(route, stringify, logic, request).status == 415
  {
  }

  /** With valid parameters, a supported Content-Type for which the route
      registers no schema is a 415 too. */
  lemma UnregisteredMediaTypeIs415(route: RouteConfig, stringify: Json -> string, logic: Logic, request: Request)
    requires Params(OpenAPIHelper(route, request, stringify)).Success?
    requires Fetch.BodyObject(Fetch.FetchHelper(route.path, request)).Success?
    requires !Falsy(Fetch.BodyObject(Fetch.FetchHelper(route.path, request)).value)
    requires BodySchema(route, request.contentType.value).None?
    ensures Rejects(route, stringify, logic, request, Http415)
    ensures Serve(route, stringify, logic, request).status == 415
  {
  }

  /** With valid parameters and a supported, registered Content-Type, a
      body that fails its schema is a 422. */
  lemma BodyRejectedIs422(route: RouteConfig, stringify: Json -> string, logic: Logic, request: Request)
    requires Params(OpenAPIHelper(route, request, stringify)).Success?
    requires Fetch.BodyObject(Fetch.FetchHelper(route.path, request)).Success?
    requires !Falsy(Fetch.BodyObject(Fetch.FetchHelper(route.path, request)).value)
    requires BodySchema(route, request.contentType.value).Some?
    requires BodySchema(route, request.contentType.value).value.safeParse(
               Fetch.BodyObject(Fetch.FetchHelper(route.path, request)).value).None?
    ensures Rejects(route, stringify, logic, request, Http422)
    ensures Serve(route, stringify, logic, request).status == 422
  {
  }

  /** The request passed validation and the logic produced `response`. */
  predicate ReachesLogic(route: RouteConfig, stringify: Json -> string, logic: Logic, request: Request, response: Response) {
    var h := OpenAPIHelper(route, request, stringify);
    && Params(h).Success?
    && BodyObject(h).Success?
    && logic(Params(h).value, BodyObject(h).value) == Success(response)
  }

  /** A response with an undeclared status becomes a 500; the status the
      logic chose does not reach the client. */
  lemma UndeclaredStatusIs500(route: RouteConfig, stringify: Json -> string, logic: Logic, request: Request, response: Response)
    requires ReachesLogic(route, stringify, logic, request, response)
    requires response.status !in route.responses
    ensures Rejects(route, stringify, logic, request, Http500)
    ensures Serve(route, stringify, logic, request).status == 500
  {
  }

  /** A JSON response whose body fails the schema declared for its status
      becomes a 500. */
  lemma ResponseRejectedIs500(route: RouteConfig, stringify: Json -> string, logic: Logic, request: Request, response: Response)
    requires ReachesLogic(route, stringify, logic, request, response)
    requires response.status in route.responses && response.contentType == Some(ApplicationJson)
    requires route.responses[response.status].content.Some?
    requires ApplicationJson in route.responses[response.status].content.value
    requires route.responses[response.status].content.value[ApplicationJson].schema.Some?
    requires response.body.Decoded?
    requires route.responses[response.status].content.value[ApplicationJson].schema.value.safeParse(response.body.value).None?
    ensures Rejects(route, stringify, logic, request, Http500)
    ensures Serve(route, stringify, logic, request).status == 500
  {
  }

  /** When every stage succeeds the client receives exactly what the logic
      returned, computed from the schema-parsed parameters and body. */
  lemma SuccessPassesResponseThrough(route: RouteConfig, stringify: Json -> string, logic: Logic, request: Request)
    requires Handle(route, stringify, logic, request).Success?
    ensures var h := OpenAPIHelper(route, request, stringify);
      && Params(h).Success? && BodyObject(h).Success?
      && logic(Params(h).value, BodyObject(h).value) == Success(Serve(route, stringify, logic, request))
  {
  }

  /** The logic may throw too: what it throws is normalised and rendered
      like any other failure, without `respondWith()` being reached. */
  lemma LogicThrowRendered(route: RouteConfig, stringify: Json -> string, logic: Logic, request: Request)
    requires Params(OpenAPIHelper(route, request, stringify)).Success?
    requires BodyObject(OpenAPIHelper(route, request, stringify)).Success?
    requires logic(Params(OpenAPIHelper(route, request, stringify)).value,
                   BodyObject(OpenAPIHelper(route, request, stringify)).value).Failure?
    ensures var t := logic(Params(OpenAPIHelper(route, request, stringify)).value,
                           BodyObject(OpenAPIHelper(route, request, stringify)).value).error;
      && Serve(route, stringify, logic, request) == Fetch.ToJsonErrorResponse(ToHttpError(t))
      && (t.Http? ==> Serve(route, stringify, logic, request).status == t.error.status)
      && (!t.Http? ==> Serve(route, stringify, logic, request).status == 500)
  {
  }

  /** The `HttpError`s the logic may throw carry one of the four error
      statuses. */
  ghost predicate ThrowsErrorStatusesOnly(logic: Logic) {
    forall params, body :: logic(params, body).Failure? && logic(params, body).error.Http? ==>
      logic(params, body).error.error.status in {404, 415, 422, 500}
  }

  /** The client only ever sees a status the route declares or one of the
      four error statuses, as long as the logic throws no `HttpError` of
      another status (an `HttpError` 403 from the logic reaches the client
      as a 403, by `LogicThrowRendered`). */
  lemma StatusIsDeclaredOrError(route: RouteConfig, stringify: Json -> string, logic: Logic, request: Request)
    requires ThrowsErrorStatusesOnly(logic)
    ensures var status := Serve(route, stringify, logic, request).status;
      status in route.responses || status in {404, 415, 422, 500}
  {
    var h := OpenAPIHelper(route, request, stringify);
    var r := Handle(route, stringify, logic, request);
    if r.Failure? {
      var e := r.error;
      if Params(h).Failure? {
        assert WellFormed(e);
      } else if BodyObject(h).Failure? {
        assert WellFormed(e);
      }
    }
  }

  /** The echo logic: the body back with status 200. */
  function Echo(params: Json, body: Json): Result<Response, Thrown> {
    Success(JsonResponse(body, 200))
  }

  /** Round trip: a request whose parameters and body validate, answered by
      the echo logic, yields a response whose JSON body is the validated
      body, as long as status 200 declares a JSON schema accepting it. */
  lemma EchoRoundTrip(route: RouteConfig, stringify: Json -> string, request: Request)
    requires Params(OpenAPIHelper(route, request, stringify)).Success?
    requires BodyObject(OpenAPIHelper(route, request, stringify)).Success?
    requires 200 in route.responses && route.responses[200].content.Some?
    requires ApplicationJson in route.responses[200].content.value
    requires route.responses[200].content.value[ApplicationJson].schema.Some?
    requires route.responses[200].content.value[ApplicationJson].schema.value.safeParse(
               BodyObject(OpenAPIHelper(route, request, stringify)).value).Some?
    ensures Serve(route, stringify, Echo, request).status == 200
    ensures Serve(route, stringify, Echo, request).body == Decoded(BodyObject(OpenAPIHelper(route, request, stringify)).value)
  {
  }
}
