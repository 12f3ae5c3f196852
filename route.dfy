/**
 * What the route handlers under app/api share: the request as a handler sees
 * it, the response it builds with NextResponse, and the two guards every
 * JSON-accepting handler runs first (ensureJsonRequest, then parseJsonBody).
 */
module Route {
  import opened Wrappers
  import opened Text
  import opened TryCatch
  import opened Json
  import opened Zod
  import opened Http
  import opened Schema

  /** The Content-Type header and what `req.json()` does with the body. */
  datatype Request = Request(contentType: Option<string>, body: Outcome<Json>)

  /** A Location header, `/api/{collection}/{encodeURIComponent(key)}`, kept unencoded. */
  datatype Location = Location(collection: string, key: string)

  datatype Payload =
    | CategoryRows(names: set<string>)
    | CategoryRow(name: string)
    | ProductRows(rows: set<Product>)
    | ProductRow(product: Product)
    | Updated(count: nat)

  /** A JSON payload, an empty 204, or `{ error }` with the error's status (and Retry-After). */
  datatype Response =
    | Ok(status: int, payload: Payload, location: Option<Location>)
    | NoContent
    | Failed(error: HttpError)
  {
    function Status(): int {
      match this
      case Ok(status, _, _) => status
      case NoContent => 204
      case Failed(e) => e.status
    }
  }

  /** A body the route's zod schema rejects: 422 with zod's issues. */
  function Unprocessable(issues: Issues): HttpError {
    HttpError(422, Issues(issues), None)
  }

  /** ensureJsonRequest, then parseJsonBody, each answering first when it fails. */
  function ReadJson(req: Request): (r: Result<Json, HttpError>)
    ensures r.Success? <==> DeclaresJson(req.contentType) && req.body.Returned?
    ensures r.Success? ==> r.value == req.body.value
    ensures !DeclaresJson(req.contentType) ==> r == Failure(UnsupportedMediaType)
    ensures DeclaresJson(req.contentType) && req.body.Threw? ==> r == Failure(InvalidJsonBody)
  {
    var contentTypeError := EnsureJsonRequest(req.contentType);
    if contentTypeError.Some? then Failure(contentTypeError.value)
    else
      var (jsonErr, body) := ParseJsonBody(req.body);
      if jsonErr.Some? then Failure(jsonErr.value) else Success(body.value)
  }

  /** An object schema applied to something that is not an object: one issue at the root. */
  const NotAnObject: Issues := [Issue([], InvalidType)]

  /** The issues one field contributes to its object's rejection. */
  function IssuesOf<T>(r: Result<T, Issues>): (issues: Issues)
    ensures issues == [] <== r.Success?
  {
    if r.Failure? then r.error else []
  }

  /** A string field that `z.string().trim().min(1)` accepts. */
  predicate TrimmedNonEmpty(v: Option<Json>) {
    v.Some? && v.value.JString? && |Trim(JsBlank, v.value.s)| >= 1
  }
}
