/** The standard Request/Response abstraction the core consumes, reduced to
    what the core reads from it. Bodies are represented by the outcome of
    decoding them (`request.json()`, `request.formData()`,
    `response.json()`), since the decoders are foreign code. */
module FetchApi {
  import opened Wrappers
  import opened JsonValues
  import opened HttpErrors

  /** The outcome of a foreign body decoder: a value, or the `Error` it throws. */
  datatype Decoding<T> = Decoded(value: T) | Undecodable(error: PlainError)

  /** A request: the URL's `pathname`, the decoded `searchParams` entries in
      order, the `content-type` header (`None` when absent), and what the
      JSON and form decoders make of the body. */
  datatype Request = Request(
    pathname: string,
    search: seq<(string, string)>,
    contentType: Option<string>,
    jsonBody: Decoding<Json>,
    formBody: Decoding<seq<(string, string)>>)

  /** A response: status, `content-type` header, and what `response.json()`
      makes of the body. */
  datatype Response = Response(status: nat, contentType: Option<string>, body: Decoding<Json>)

  const ApplicationJson: string := "application/json"
  const FormUrlEncoded: string := "application/x-www-form-urlencoded"

  /** `Response.json(data, { status })`: the body reads back as `data`. */
  function JsonResponse(data: Json, status: nat): (r: Response)
    ensures r.status == status && r.contentType == Some(ApplicationJson)
    ensures r.body == Decoded(data)
  {
    Response(status, Some(ApplicationJson), Decoded(data))
  }
}
