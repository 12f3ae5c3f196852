/** app/api/categories/route.ts: list the categories, create one. */
module CategoriesRoute {
  import opened Wrappers
  import opened Text
  import opened TryCatch
  import opened Json
  import opened Zod
  import opened Http
  import opened Schema
  import opened Route

  /** `createInsertSchema(categories, { name: z.string().trim().min(1) })`. */
  function InsertSchema(body: Json): (r: Result<string, Issues>)
    ensures r.Success? <==>
      && body.JObject? && "name" in body.fields && body.fields["name"].JString?
      && |Trim(JsBlank, body.fields["name"].s)| >= 1
    ensures r.Success? ==> r.value == Trim(JsBlank, body.fields["name"].s)
  {
    if !body.JObject? then Failure(NotAnObject)
    else StringField(Field(body, "name"), [Key("name")], 1, None)
  }

  /**
   * Everything POST checks before touching the store: the media type (415), the
   * JSON syntax (400) and the schema (422), in that order. Yields the trimmed name.
   */
  function ValidateCreate(req: Request): (r: Result<string, HttpError>)
    ensures r.Success? <==> ReadJson(req).Success? && InsertSchema(req.body.value).Success?
    ensures r.Success? ==> r.value == InsertSchema(req.body.value).value
    ensures r.Failure? ==> r.error.status in {400, 415, 422}
    ensures !DeclaresJson(req.contentType) ==> r == Failure(UnsupportedMediaType)
    ensures DeclaresJson(req.contentType) && req.body.Threw? ==> r == Failure(InvalidJsonBody)
    ensures ReadJson(req).Success? && InsertSchema(req.body.value).Failure? ==>
      r == Failure(Unprocessable(InsertSchema(req.body.value).error))
  {
    var body :- ReadJson(req);
    match InsertSchema(body)
    case Failure(issues) => Failure(Unprocessable(issues))
    case Success(name) => Success(name)
  }

  /**
   * A name the schema accepts passes the table's CHECK exactly when it does not
   * start with NUL: zod lets "\u0000" through, SQLite's `length` does not count it.
   */
  lemma ValidatedNamePassesCheck(req: Request)
    requires ValidateCreate(req).Success?
    ensures ValidateCreate(req).value != []
    ensures SqlNonEmpty(ValidateCreate(req).value) <==> ValidateCreate(req).value[0] != '\0'
  {
    JsTrimmedPassesCheckIff(req.body.value.fields["name"].s);
  }

  /** `{"name":"\u0000"}` passes the schema and fails the CHECK. */
  lemma NulNameReachesCheck()
    ensures InsertSchema(JObject(map["name" := JString("\0")])) == Success("\0")
    ensures !SqlNonEmpty("\0")
  {
    TrimTight(JsBlank, "\0");
    NulFailsCheck();
  }

  const AlreadyExists := HttpError(409, Text("Category already exists"), None)

  /** GET: every category, or the mapped store failure. */
  method Get(db: Database, fault: Option<Error>) returns (resp: Response)
    ensures fault.Some? ==> resp == Failed(SqliteToHttpError(fault.value, "Failed to fetch categories"))
    ensures fault.None? ==> resp == Ok(200, CategoryRows(db.categories), None)
  {
    var rows := db.SelectCategories(fault);
    var pair := TryCatch.TryCatch(Executed(rows));
    if pair.error.Some? {
      return Failed(SqliteToHttpError(pair.error.value, "Failed to fetch categories"));
    }
    return Ok(200, CategoryRows(pair.value.value), None);
  }

  /**
   * POST, as a function of what validation made of the request and of the
   * categories it finds: 201 with the inserted row and its Location, 409 when
   * the name is taken (the insert does nothing on conflict), the validation
   * error, or the mapped store failure, a failed CHECK included; and the
   * categories it leaves.
   */
  function PostResult(categories: set<string>, v: Result<string, HttpError>, fault: Option<Error>): (r: (Response, set<string>))
    ensures r.0.Ok? <==> v.Success? && fault.None? && SqlNonEmpty(v.value) && v.value !in categories
    ensures r.0.Ok? ==>
      r == (Ok(201, CategoryRow(v.value), Some(Location("categories", v.value))), categories + {v.value})
    ensures !r.0.Ok? ==> r.0.Failed? && r.1 == categories
    ensures v.Success? && fault.None? && !SqlNonEmpty(v.value) ==>
      r.0 == Failed(SqliteToHttpError(CheckError("categories_name_not_empty"), "Failed to create category"))
    ensures v.Success? && fault.None? && SqlNonEmpty(v.value) && v.value in categories ==> r.0 == Failed(AlreadyExists)
    ensures v.Failure? ==> r.0 == Failed(v.error)
    ensures v.Success? && fault.Some? ==> r.0 == Failed(SqliteToHttpError(fault.value, "Failed to create category"))
  {
    match v
    case Failure(e) => (Failed(e), categories)
    case Success(name) =>
      if fault.Some? then (Failed(SqliteToHttpError(fault.value, "Failed to create category")), categories)
      else if !SqlNonEmpty(name) then
        (Failed(SqliteToHttpError(CheckError("categories_name_not_empty"), "Failed to create category")), categories)
      else if name in categories then (Failed(AlreadyExists), categories)
      else (Ok(201, CategoryRow(name), Some(Location("categories", name))), categories + {name})
  }

  /**
   * POST: validate, insert with `ON CONFLICT DO NOTHING`, answer as `PostResult`
   * says. A name the CHECK rejects (one starting with NUL) fails the insert and
   * is mapped like any other store failure.
   */
  method Post(db: Database, req: Request, fault: Option<Error>) returns (resp: Response)
    requires db.Valid()
    modifies db
    ensures db.Valid() && db.products == old(db.products)
    ensures (resp, db.categories) == PostResult(old(db.categories), ValidateCreate(req), fault)
  {
    var v := ValidateCreate(req);
    if v.Failure? {
      return Failed(v.error);
    }
    var inserted := db.InsertCategory(v.value, fault);
    var pair := TryCatch.TryCatch(Executed(inserted));
    if pair.error.Some? {
      return Failed(SqliteToHttpError(pair.error.value, "Failed to create category"));
    }
    var row := pair.value.value;
    if row.None? {
      return Failed(AlreadyExists);
    }
    return Ok(201, CategoryRow(row.value), Some(Location("categories", row.value)));
  }

  /**
   * Creating the same category twice: the second request gets 409 whatever the
   * first got, and the two leave the name stored once. A name the CHECK rejects
   * gets the same error twice and is never stored.
   */
  lemma SecondPostConflicts(categories: set<string>, name: string)
    ensures var (first, after) := PostResult(categories, Success(name), None);
      var (second, final) := PostResult(after, Success(name), None);
      && (first.Ok? <==> SqlNonEmpty(name) && name !in categories)
      && (SqlNonEmpty(name) ==> second == Failed(AlreadyExists) && final == after == categories + {name})
      && (!SqlNonEmpty(name) ==> second == first && final == after == categories)
  {
  }
}
