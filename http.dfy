/**
 * lib/http.ts: path-parameter and request guards, and the mapping from a
 * storage failure to an HTTP error response (`sqliteToHttpError`).
 */
module Http {
  import opened Wrappers
  import opened Text
  import opened Json
  import opened Zod
  import opened Uuid
  import opened TryCatch

  /** The text of an `{error}` body: a fixed string, or a validator's issues (zod renders them as `error.message`). */
  datatype Message = Text(s: string) | Issues(issues: Zod.Issues)

  /** `NextResponse.json({ error }, { status, headers })`. */
  datatype HttpError = HttpError(status: int, message: Message, retryAfter: Option<string>)

  function BadRequest(s: string): HttpError {
    HttpError(400, Text(s), None)
  }

  /** validateUuidParam: `null` (None) exactly when the trimmed id is a version-4 UUID. */
  function ValidateUuidParam(id: string, resource: string): (r: Option<HttpError>)
    ensures r.None? <==> IsUuidV4(Trim(JsBlank, id))
    ensures Trim(JsBlank, id) == [] ==> r == Some(BadRequest("Invalid " + resource + " id"))
    ensures Trim(JsBlank, id) != [] && !IsUuidV4(Trim(JsBlank, id)) ==>
      r == Some(BadRequest("Invalid " + resource + " id format"))
  {
    var trimmed := Trim(JsBlank, id);
    if |trimmed| == 0 then
      assert !Matches(V4Pattern, trimmed);
      Some(BadRequest("Invalid " + resource + " id"))
    else if !IsUuidV4(trimmed) then Some(BadRequest("Invalid " + resource + " id format"))
    else None
  }

  /** Whitespace around a well-formed id is tolerated. */
  lemma PaddedUuidAccepted(pre: string, id: string, post: string, resource: string)
    requires AllBlank(JsBlank, pre) && AllBlank(JsBlank, post) && IsUuidV4(id)
    ensures ValidateUuidParam(pre + id + post, resource).None?
  {
    UuidIsTight(id);
    TrimPadded(JsBlank, pre, id, post);
  }

  /** validateNameParam: a 400 exactly when nothing is left after trimming. */
  function ValidateNameParam(name: string, resource: string): (r: Option<HttpError>)
    ensures r.Some? <==> AllBlank(JsBlank, name)
    ensures r.Some? ==> r == Some(BadRequest("Invalid " + resource + " name"))
  {
    var trimmed := Trim(JsBlank, name);
    TrimEmptyIff(JsBlank, name);
    if |trimmed| == 0 then Some(BadRequest("Invalid " + resource + " name")) else None
  }

  const UnsupportedMediaType := HttpError(415, Text("Content-Type must be application/json"), None)

  /** The Content-Type check: a missing header counts as the empty string. */
  predicate DeclaresJson(contentType: Option<string>) {
    Contains(ToLower(contentType.GetOr("")), "application/json")
  }

  /** ensureJsonRequest: a 415 unless the lower-cased Content-Type mentions application/json. */
  function EnsureJsonRequest(contentType: Option<string>): (r: Option<HttpError>)
    ensures r.None? <==> DeclaresJson(contentType)
    ensures r.Some? ==> r.value == UnsupportedMediaType && r.value.status == 415
  {
    var header := contentType.GetOr("");
    if !Contains(ToLower(header), "application/json") then Some(UnsupportedMediaType) else None
  }

  /** A request without Content-Type is refused. */
  lemma MissingContentTypeRefused()
    ensures EnsureJsonRequest(None) == Some(UnsupportedMediaType)
  {
  }

  /** Mixed-case types with parameters pass: only a case-folded substring is looked for. */
  lemma MixedCaseJsonAccepted()
    ensures EnsureJsonRequest(Some("Application/JSON; charset=utf-8")).None?
  {
    var l := ToLower("Application/JSON; charset=utf-8");
    forall k | 0 <= k < 16 ensures l[k] == "application/json"[k] { }
    assert OccursAt(l, "application/json", 0);
  }

  const InvalidJsonBody := BadRequest("Invalid JSON body")

  /**
   * parseJsonBody: `[400, null]` when reading or parsing the body throws,
   * `[null, body]` otherwise; exactly one side is set.
   */
  function ParseJsonBody(read: Outcome<Json>): (r: (Option<HttpError>, Option<Json>))
    ensures r.0.Some? != r.1.Some?
    ensures read.Threw? ==> r == (Some(InvalidJsonBody), None)
    ensures read.Returned? ==> r == (None, Some(read.value))
  {
    match read
    case Returned(body) => (None, Some(body))
    case Threw(_) => (Some(InvalidJsonBody), None)
  }

  // The failure signals sqliteToHttpError tests, in the order it tests them.
  // `m` is the lower-cased message; codes are compared exactly.

  predicate BusySignal(code: Option<string>, m: string) {
    code == Some("SQLITE_BUSY") || Contains(m, "database is locked") || Contains(m, "busy")
  }

  predicate FullSignal(code: Option<string>, m: string) {
    code == Some("SQLITE_FULL") || Contains(m, "database or disk is full")
  }

  predicate ReadOnlySignal(code: Option<string>, m: string) {
    code == Some("SQLITE_READONLY") || Contains(m, "read-only")
  }

  predicate ConstraintSignal(code: Option<string>, m: string) {
    (code.Some? && StartsWith(code.value, "SQLITE_CONSTRAINT")) || Contains(m, "constraint failed")
  }

  predicate RangeSignal(code: Option<string>, m: string) {
    code == Some("SQLITE_RANGE") || Contains(m, "bind or column index out of range")
  }

  predicate MismatchSignal(code: Option<string>, m: string) {
    code == Some("SQLITE_MISMATCH") || Contains(m, "datatype mismatch")
  }

  predicate TooBigSignal(code: Option<string>, m: string) {
    code == Some("SQLITE_TOOBIG") || Contains(m, "string or blob too big")
  }

  predicate UnavailableSignal(code: Option<string>) {
    code == Some("SQLITE_PERM") || code == Some("SQLITE_AUTH") || code == Some("SQLITE_CANTOPEN")
  }

  const Busy := HttpError(503, Text("Database is busy, please retry"), Some("1"))
  const Full := HttpError(507, Text("Database is full"), None)
  const ReadOnly := HttpError(503, Text("Database is read-only"), None)
  const ResourceConflict := HttpError(409, Text("Resource conflict"), None)
  const ReferentialConflict := HttpError(409, Text("Referential integrity conflict"), None)
  const ValidationFailed := HttpError(422, Text("Validation failed"), None)
  const ConstraintViolation := HttpError(422, Text("Constraint violation"), None)
  const InvalidQueryParameters := HttpError(400, Text("Invalid query parameters"), None)
  const InvalidDataType := HttpError(400, Text("Invalid data type"), None)
  const PayloadTooLarge := HttpError(413, Text("Payload too large"), None)
  const Unavailable := HttpError(503, Text("Database unavailable"), None)

  /** Every message sqliteToHttpError can answer with, other than the caller's fallback. */
  const FixedMessages: set<string> := {
    "Database is busy, please retry", "Database is full", "Database is read-only",
    "Resource conflict", "Referential integrity conflict", "Validation failed",
    "Constraint violation", "Invalid query parameters", "Invalid data type",
    "Payload too large", "Database unavailable"
  }

  /** The branch taken inside the constraint case. */
  function ConstraintKind(m: string): HttpError {
    if Contains(m, "unique") || Contains(m, "primary key") then ResourceConflict
    else if Contains(m, "foreign key") then ReferentialConflict
    else if Contains(m, "check") || Contains(m, "not null") then ValidationFailed
    else ConstraintViolation
  }

  /**
   * sqliteToHttpError: a first-match-wins list of tests on the error's code and
   * lower-cased message. Only a busy signal produces Retry-After, and the
   * caller's fallback text is used only for the final 500.
   */
  function SqliteToHttpError(err: Error, fallback: string): (r: HttpError)
    ensures r.status in {400, 409, 413, 422, 500, 503, 507}
    ensures r.retryAfter.Some? <==> BusySignal(err.code, ToLower(err.message))
    ensures r.retryAfter.Some? ==> r == Busy
    ensures r.status == 500 ==> r.message == Text(fallback)
    ensures r.status != 500 ==> r.message.Text? && r.message.s in FixedMessages
  {
    var code := err.code;
    var m := ToLower(err.message);
    if BusySignal(code, m) then Busy
    else if FullSignal(code, m) then Full
    else if ReadOnlySignal(code, m) then ReadOnly
    else if ConstraintSignal(code, m) then ConstraintKind(m)
    else if RangeSignal(code, m) then InvalidQueryParameters
    else if MismatchSignal(code, m) then InvalidDataType
    else if TooBigSignal(code, m) then PayloadTooLarge
    else if UnavailableSignal(code) then Unavailable
    else HttpError(500, Text(fallback), None)
  }

  /**
   * First match wins: each answer is given exactly when its own signal is present
   * and no earlier one is. So full outranks read-only, and both outrank a
   * constraint failure named in the same message.
   */
  lemma SignalsDecideInOrder(err: Error, fallback: string)
    ensures var c, m, r := err.code, ToLower(err.message), SqliteToHttpError(err, fallback);
      && (BusySignal(c, m) ==> r == Busy)
      && (!BusySignal(c, m) && FullSignal(c, m) ==> r == Full)
      && (!BusySignal(c, m) && !FullSignal(c, m) && ReadOnlySignal(c, m) ==> r == ReadOnly)
    ensures var c, m, r := err.code, ToLower(err.message), SqliteToHttpError(err, fallback);
      !BusySignal(c, m) && !FullSignal(c, m) && !ReadOnlySignal(c, m) ==>
        && (ConstraintSignal(c, m) ==> r == ConstraintKind(m))
        && (!ConstraintSignal(c, m) && RangeSignal(c, m) ==> r == InvalidQueryParameters)
        && (!ConstraintSignal(c, m) && !RangeSignal(c, m) && MismatchSignal(c, m) ==> r == InvalidDataType)
        && (!ConstraintSignal(c, m) && !RangeSignal(c, m) && !MismatchSignal(c, m) && TooBigSignal(c, m) ==>
              r == PayloadTooLarge)
        && ((!ConstraintSignal(c, m) && !RangeSignal(c, m) && !MismatchSignal(c, m) && !TooBigSignal(c, m) &&
             UnavailableSignal(c)) ==> r == Unavailable)
  {
  }

  /** No signal at all is exactly what yields the 500 with the fallback text. */
  lemma FallbackOnlyWhenUnclassified(err: Error, fallback: string)
    ensures var m := ToLower(err.message);
      SqliteToHttpError(err, fallback).status == 500 <==>
        !BusySignal(err.code, m) && !FullSignal(err.code, m) && !ReadOnlySignal(err.code, m) &&
        !ConstraintSignal(err.code, m) && !RangeSignal(err.code, m) && !MismatchSignal(err.code, m) &&
        !TooBigSignal(err.code, m) && !UnavailableSignal(err.code)
  {
  }

  /** Case in the message does not matter: a message and its lower case map alike. */
  lemma MessageCaseIgnored(err: Error, fallback: string)
    ensures SqliteToHttpError(err, fallback) == SqliteToHttpError(err.(message := ToLower(err.message)), fallback)
  {
    ToLowerIdempotent(err.message);
  }

  /** Codes are compared exactly: a lower-case busy code is not a busy signal. */
  lemma CodeCaseMatters()
    ensures SqliteToHttpError(Error("", Some("sqlite_busy")), "Failed") == HttpError(500, Text("Failed"), None)
  {
    assert !StartsWith("sqlite_busy", "SQLITE_CONSTRAINT");
  }

  /** Busy outranks everything, a constraint failure in the same message included. */
  lemma BusyOutranksConstraint(err: Error, fallback: string)
    requires Contains(ToLower(err.message), "busy")
    ensures SqliteToHttpError(err, fallback) == Busy
  {
  }

  /** A concrete instance: a message that mentions both gets the busy answer. */
  lemma BusyConstraintMessage()
    ensures SqliteToHttpError(Error("database is busy: UNIQUE constraint failed", None), "Failed") == Busy
  {
    var m := "database is busy: UNIQUE constraint failed";
    var l := ToLower(m);
    forall k | 12 <= k < 16 ensures l[k] == "busy"[k - 12] { }
    assert OccursAt(l, "busy", 12);
    BusyOutranksConstraint(Error(m, None), "Failed");
  }

  /**
   * A cheap way to rule out the three earlier signals for a given message:
   * every busy, full and read-only message test needs a 'b' or a '-'. So a
   * constraint failure whose message has neither, under a code of its own,
   * carries none of those signals and is decided by the constraint branch.
   */
  lemma ConstraintBranchDecides(err: Error, fallback: string)
    requires var m := ToLower(err.message);
      Contains(m, "constraint failed") && 'b' !in m && '-' !in m
    requires err.code !in {Some("SQLITE_BUSY"), Some("SQLITE_FULL"), Some("SQLITE_READONLY")}
    ensures var m := ToLower(err.message);
      !BusySignal(err.code, m) && !FullSignal(err.code, m) && !ReadOnlySignal(err.code, m)
    ensures SqliteToHttpError(err, fallback) == ConstraintKind(ToLower(err.message))
  {
    var m := ToLower(err.message);
    AbsentAt(m, "busy", 0);
    AbsentAt(m, "database is locked", 4);
    AbsentAt(m, "database or disk is full", 4);
    AbsentAt(m, "read-only", 4);
  }

  /**
   * Inside the constraint branch (no busy, full or read-only signal): 409 exactly
   * when the message names a uniqueness, primary-key or foreign-key failure,
   * 422 otherwise.
   */
  lemma ConstraintStatuses(err: Error, fallback: string)
    requires var m := ToLower(err.message);
      !BusySignal(err.code, m) && !FullSignal(err.code, m) && !ReadOnlySignal(err.code, m) &&
      ConstraintSignal(err.code, m)
    ensures var m := ToLower(err.message); var r := SqliteToHttpError(err, fallback);
      && r.status in {409, 422}
      && (r.status == 409 <==> Contains(m, "unique") || Contains(m, "primary key") || Contains(m, "foreign key"))
      && (r == ResourceConflict <==> Contains(m, "unique") || Contains(m, "primary key"))
  {
  }
}
