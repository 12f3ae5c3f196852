/**
 * app/api/products/route.ts: list, create, and the bulk recategorise (PATCH) and
 * bulk delete (DELETE) of products by id.
 *
 * The bulk schemas refine each id with `isUuidLike`, which the route imports
 * from lib/http.ts although that file does not define it: the refinement is
 * the parameter `idOk`.
 */
module ProductsRoute {
  import opened Wrappers
  import opened Text
  import opened TryCatch
  import opened Json
  import opened Zod
  import opened Uuid
  import opened Http
  import opened Schema
  import opened Route

  /** A product as the client proposes it; the server picks the id. */
  datatype Draft = Draft(name: string, price: int, categoryName: string)

  /** A number field that `z.number().int().min(0)` accepts. */
  predicate NonNegativeInteger(v: Option<Json>) {
    v.Some? && v.value.JNumber? && v.value.n.Integral? && v.value.n.i >= 0
  }

  /**
   * `createInsertSchema(products, {...}).omit({ id: true })`: name and category are
   * trimmed and non-empty, the price a non-negative integer; any `id` the client
   * sends is dropped with the other unknown keys.
   */
  function InsertSchema(body: Json): (r: Result<Draft, Issues>)
    ensures r.Success? <==>
      && body.JObject?
      && TrimmedNonEmpty(Field(body, "name"))
      && NonNegativeInteger(Field(body, "price"))
      && TrimmedNonEmpty(Field(body, "categoryName"))
    ensures r.Success? ==> r.value == Draft(
      Trim(JsBlank, body.fields["name"].s),
      body.fields["price"].n.i,
      Trim(JsBlank, body.fields["categoryName"].s))
  {
    if !body.JObject? then Failure(NotAnObject)
    else
      var name := StringField(Field(body, "name"), [Key("name")], 1, None);
      var price := IntegerField(Field(body, "price"), [Key("price")], 0, false);
      var category := StringField(Field(body, "categoryName"), [Key("categoryName")], 1, None);
      if name.Success? && price.Success? && category.Success? then
        Success(Draft(name.value, price.value, category.value))
      else
        Failure(IssuesOf(name) + IssuesOf(price) + IssuesOf(category))
  }

  /** Whatever `id` the body carries, the schema's result is the same. */
  lemma ClientIdIgnored(fields: map<string, Json>, id: Json)
    ensures InsertSchema(JObject(fields["id" := id])) == InsertSchema(JObject(fields))
  {
    var with := JObject(fields["id" := id]);
    assert Field(with, "name") == Field(JObject(fields), "name");
    assert Field(with, "price") == Field(JObject(fields), "price");
    assert Field(with, "categoryName") == Field(JObject(fields), "categoryName");
  }

  /** Media type (415), JSON syntax (400), then the schema (422). */
  function ValidateCreate(req: Request): (r: Result<Draft, HttpError>)
    ensures r.Success? <==> ReadJson(req).Success? && InsertSchema(req.body.value).Success?
    ensures r.Success? ==> r.value == InsertSchema(req.body.value).value
    ensures r.Failure? ==> r.error.status in {400, 415, 422}
    ensures !DeclaresJson(req.contentType) ==> r == Failure(UnsupportedMediaType)
    ensures DeclaresJson(req.contentType) && req.body.Threw? ==> r == Failure(InvalidJsonBody)
    ensures ReadJson(req).Success? && InsertSchema(req.body.value).Failure? ==>
      r == Failure(Unprocessable(InsertSchema(req.body.value).error))
  {
    var body :- ReadJson(req);
    match InsertSchema(body)
    case Failure(issues) => Failure(Unprocessable(issues))
    case Success(draft) => Success(draft)
  }

  function NewRow(id: string, d: Draft): Product {
    Product(id, d.name, d.price, d.categoryName)
  }

  /**
   * With the id crypto.randomUUID gives, a validated draft passes all four CHECK
   * constraints exactly when neither its name nor its category starts with NUL:
   * the create route's CHECK branch answers only for those.
   */
  lemma ValidatedRowPassesChecks(req: Request, id: string)
    requires ValidateCreate(req).Success? && IsUuidV4(id)
    ensures var d := ValidateCreate(req).value;
      d.name != [] && d.categoryName != [] &&
      (ProductRowOk(NewRow(id, d)) <==> d.name[0] != '\0' && d.categoryName[0] != '\0')
  {
    var fields := req.body.value.fields;
    JsTrimmedPassesCheckIff(fields["name"].s);
    JsTrimmedPassesCheckIff(fields["categoryName"].s);
    UuidPassesCheck(id);
  }

  /** A version-4 UUID passes the id CHECK: it has no space at either end and starts with a hex digit. */
  lemma UuidPassesCheck(id: string)
    requires IsUuidV4(id)
    ensures SqlNonEmpty(id)
  {
    UuidIsTight(id);
    assert !SqlBlank(id[0]) && !SqlBlank(id[|id| - 1]) && id[0] != '\0';
    TrimTight(SqlBlank, id);
  }

  const CreateValidationFailed := HttpError(422, Text("Validation failed for product creation"), None)
  const UpdateValidationFailed := HttpError(422, Text("Validation failed for product update"), None)
  const CategoryMissing := HttpError(422, Text("categoryName does not exist"), None)

  /** The create route's own reading of an insert failure: CHECK first, then FOREIGN KEY, then the shared mapping. */
  function CreateFailure(err: Error): HttpError {
    if Contains(err.message, "CHECK constraint failed") then CreateValidationFailed
    else if Contains(err.message, "FOREIGN KEY constraint failed") then CategoryMissing
    else SqliteToHttpError(err, "Failed to create product")
  }

  /** The bulk update's reading of a failure: FOREIGN KEY first, then CHECK, then the shared mapping. */
  function UpdateFailure(err: Error): HttpError {
    if Contains(err.message, "FOREIGN KEY constraint failed") then CategoryMissing
    else if Contains(err.message, "CHECK constraint failed") then UpdateValidationFailed
    else SqliteToHttpError(err, "Failed to update products")
  }

  /** Every CHECK failure of an insert is answered 422 by the create route. */
  lemma CheckFailureOnCreate(constraint: string)
    ensures CreateFailure(CheckError(constraint)) == CreateValidationFailed
  {
    var t := "CHECK constraint failed";
    assert "CHECK" + " constraint failed" == t;
    assert CheckError(constraint).message == "" + t + (": " + constraint);
    ContainsPiece("", t, ": " + constraint);
  }

  /** The shared mapping calls a foreign-key failure a 409 "Referential integrity conflict". */
  lemma ForeignKeyMappedAsConflict(fallback: string)
    ensures SqliteToHttpError(ForeignKeyError, fallback) == ReferentialConflict
  {
    ConstraintMessageLowered("FOREIGN KEY", "");
    ForeignKeyWordsLowered();
    FixedWordsLack();
    var k := "foreign key";
    assert 'b' !in k && '-' !in k && 'q' !in k && 'p' !in k;
    ConstraintMessageChar(k, "", 'b');
    ConstraintMessageChar(k, "", '-');
    ConstraintMessageChar(k, "", 'q');
    ConstraintMessageChar(k, "", 'p');
    var l := ToLower(ForeignKeyError.message);
    ConstraintBranchDecides(ForeignKeyError, fallback);
    AbsentAt(l, "unique", 3);
    AbsentAt(l, "primary key", 0);
  }

  /**
   * A missing category: both product routes answer 422 "categoryName does not
   * exist", where the shared mapping alone would have said 409
   * (`ForeignKeyMappedAsConflict`).
   */
  lemma ForeignKeyFailureReading()
    ensures CreateFailure(ForeignKeyError) == CategoryMissing
    ensures UpdateFailure(ForeignKeyError) == CategoryMissing
  {
    ConstraintMessageNamesKind("FOREIGN KEY", "");
    ForeignKeyWordsSpelled();
    FixedWordsLack();
    assert 'H' !in "FOREIGN KEY";
    ConstraintMessageChar("FOREIGN KEY", "", 'H');
    CheckWordsSpelled();
    MissingCharNotContained(ForeignKeyError.message, "CHECK" + " constraint failed", 'H');
  }

  lemma ForeignKeyWordsSpelled()
    ensures "FOREIGN KEY" + " constraint failed" == "FOREIGN KEY constraint failed"
  {
  }

  lemma CheckWordsSpelled()
    ensures "CHECK" + " constraint failed" == "CHECK constraint failed"
  {
  }

  /** The duplicate-id message mentions neither a CHECK nor a FOREIGN KEY failure. */
  lemma IdTakenNotSniffed()
    ensures !Contains(ProductIdTaken.message, "CHECK constraint failed")
    ensures !Contains(ProductIdTaken.message, "FOREIGN KEY constraint failed")
  {
    var detail := ": products.id";
    FixedWordsLack();
    assert 'H' !in "UNIQUE" && 'F' !in "UNIQUE" && 'H' !in detail && 'F' !in detail;
    ConstraintMessageChar("UNIQUE", detail, 'H');
    ConstraintMessageChar("UNIQUE", detail, 'F');
    CheckWordsSpelled();
    MissingCharNotContained(ProductIdTaken.message, "CHECK" + " constraint failed", 'H');
    ForeignKeyWordsSpelled();
    MissingCharNotContained(ProductIdTaken.message, "FOREIGN KEY" + " constraint failed", 'F');
  }

  /** The shared mapping calls a duplicate id a 409 "Resource conflict". */
  lemma IdTakenMappedAsConflict(fallback: string)
    ensures SqliteToHttpError(ProductIdTaken, fallback) == ResourceConflict
  {
    var detail := ": products.id";
    FixedWordsLack();
    ConstraintMessageLowered("UNIQUE", detail);
    UniqueWordLowered();
    ToLowerOfLower(detail);
    assert 'b' !in "unique" && '-' !in "unique" && 'b' !in detail && '-' !in detail;
    ConstraintMessageChar("unique", detail, 'b');
    ConstraintMessageChar("unique", detail, '-');
    ConstraintBranchDecides(ProductIdTaken, fallback);
  }

  /** A taken id (a repeated random UUID) is a 409 "Resource conflict" on create. */
  lemma DuplicateIdOnCreate()
    ensures CreateFailure(ProductIdTaken) == ResourceConflict
  {
    IdTakenNotSniffed();
    IdTakenMappedAsConflict("Failed to create product");
  }

  /** The body of a bulk update, after validation. */
  datatype BulkUpdate = BulkUpdate(ids: seq<string>, categoryName: string)

  /** `z.array(z.string().trim().refine(idOk)).min(1)` accepts the field. */
  predicate IdsOk(v: Option<Json>, idOk: string -> bool) {
    && v.Some? && v.value.JArray? && |v.value.items| >= 1
    && forall i | 0 <= i < |v.value.items| :: EntryOk(v.value.items[i], idOk)
  }

  /** The trimmed ids of a list that `IdsOk` accepts. */
  predicate TrimmedIds(ids: seq<string>, v: Option<Json>, idOk: string -> bool) {
    && v.Some? && v.value.JArray? && |ids| == |v.value.items|
    && forall i | 0 <= i < |ids| ::
         v.value.items[i].JString? && ids[i] == Trim(JsBlank, v.value.items[i].s) && idOk(ids[i])
  }

  function IdsField(body: Json, idOk: string -> bool): Result<seq<string>, Issues> {
    TrimmedStringArray(Field(body, "ids"), [Key("ids")], idOk, "Invalid product id")
  }

  /** An accepted `ids` field yields the trimmed ids, one per entry. */
  lemma IdsFieldTrimmed(body: Json, idOk: string -> bool)
    requires IdsField(body, idOk).Success?
    ensures IdsOk(Field(body, "ids"), idOk)
    ensures TrimmedIds(IdsField(body, idOk).value, Field(body, "ids"), idOk) && |IdsField(body, idOk).value| >= 1
  {
    var v := Field(body, "ids");
    var ids := IdsField(body, idOk).value;
    forall i | 0 <= i < |ids|
      ensures v.value.items[i].JString? && ids[i] == Trim(JsBlank, v.value.items[i].s) && idOk(ids[i])
    {
      assert EntryOk(v.value.items[i], idOk);
    }
  }

  /** BulkUpdateSchema: a non-empty list of acceptable ids and a non-empty category name, both trimmed. */
  function BulkUpdateSchema(body: Json, idOk: string -> bool): (r: Result<BulkUpdate, Issues>)
    ensures r.Success? <==>
      body.JObject? && IdsOk(Field(body, "ids"), idOk) && TrimmedNonEmpty(Field(body, "categoryName"))
    ensures r.Success? ==>
      && TrimmedIds(r.value.ids, Field(body, "ids"), idOk)
      && r.value.categoryName == Trim(JsBlank, body.fields["categoryName"].s)
  {
    if !body.JObject? then Failure(NotAnObject)
    else
      var ids := IdsField(body, idOk);
      var category := StringField(Field(body, "categoryName"), [Key("categoryName")], 1, None);
      if ids.Success? && category.Success? then IdsFieldTrimmed(body, idOk); Success(BulkUpdate(ids.value, category.value))
      else Failure(IssuesOf(ids) + IssuesOf(category))
  }

  /** BulkDeleteSchema: a non-empty list of acceptable ids, trimmed. */
  function BulkDeleteSchema(body: Json, idOk: string -> bool): (r: Result<seq<string>, Issues>)
    ensures r.Success? <==> body.JObject? && IdsOk(Field(body, "ids"), idOk)
    ensures r.Success? ==> TrimmedIds(r.value, Field(body, "ids"), idOk) && |r.value| >= 1
  {
    if !body.JObject? then Failure(NotAnObject)
    else
      var ids := IdsField(body, idOk);
      if ids.Success? then IdsFieldTrimmed(body, idOk); ids else ids
  }

  function ValidateBulkUpdate(req: Request, idOk: string -> bool): (r: Result<BulkUpdate, HttpError>)
    ensures r.Success? <==> ReadJson(req).Success? && BulkUpdateSchema(req.body.value, idOk).Success?
    ensures r.Success? ==> r.value == BulkUpdateSchema(req.body.value, idOk).value
    ensures r.Failure? ==> r.error.status in {400, 415, 422}
    ensures !DeclaresJson(req.contentType) ==> r == Failure(UnsupportedMediaType)
    ensures DeclaresJson(req.contentType) && req.body.Threw? ==> r == Failure(InvalidJsonBody)
    ensures ReadJson(req).Success? && BulkUpdateSchema(req.body.value, idOk).Failure? ==>
      r == Failure(Unprocessable(BulkUpdateSchema(req.body.value, idOk).error))
  {
    var body :- ReadJson(req);
    match BulkUpdateSchema(body, idOk)
    case Failure(issues) => Failure(Unprocessable(issues))
    case Success(update) => Success(update)
  }

  function ValidateBulkDelete(req: Request, idOk: string -> bool): (r: Result<seq<string>, HttpError>)
    ensures r.Success? <==> ReadJson(req).Success? && BulkDeleteSchema(req.body.value, idOk).Success?
    ensures r.Success? ==> r.value == BulkDeleteSchema(req.body.value, idOk).value
    ensures r.Failure? ==> r.error.status in {400, 415, 422}
    ensures !DeclaresJson(req.contentType) ==> r == Failure(UnsupportedMediaType)
    ensures DeclaresJson(req.contentType) && req.body.Threw? ==> r == Failure(InvalidJsonBody)
    ensures ReadJson(req).Success? && BulkDeleteSchema(req.body.value, idOk).Failure? ==>
      r == Failure(Unprocessable(BulkDeleteSchema(req.body.value, idOk).error))
  {
    var body :- ReadJson(req);
    match BulkDeleteSchema(body, idOk)
    case Failure(issues) => Failure(Unprocessable(issues))
    case Success(ids) => Success(ids)
  }

  /**
   * A validated category name passes the CHECK exactly when it does not start
   * with NUL; otherwise a bulk update that matches a row fails on the CHECK.
   */
  lemma ValidatedCategoryPassesCheck(req: Request, idOk: string -> bool)
    requires ValidateBulkUpdate(req, idOk).Success?
    ensures ValidateBulkUpdate(req, idOk).value.categoryName != []
    ensures var c := ValidateBulkUpdate(req, idOk).value.categoryName;
      SqlNonEmpty(c) <==> c[0] != '\0'
  {
    JsTrimmedPassesCheckIff(req.body.value.fields["categoryName"].s);
  }

  /** Every CHECK failure of the bulk update is answered 422 by the route. */
  lemma CheckFailureOnUpdate()
    ensures UpdateFailure(CheckError("products_category_name_not_empty")) == UpdateValidationFailed
  {
    var c := "products_category_name_not_empty";
    forall k | 0 <= k < |c| ensures c[k] != 'F' { }
    CheckNotSniffedAsForeignKey(c);
    CheckFailureOnCreate(c);
  }

  /** A CHECK message never reads as a FOREIGN KEY failure, given a constraint name without 'F'. */
  lemma CheckNotSniffedAsForeignKey(constraint: string)
    requires 'F' !in constraint
    ensures !Contains(CheckError(constraint).message, "FOREIGN KEY constraint failed")
  {
    var detail := ": " + constraint;
    FixedWordsLack();
    assert 'F' !in "CHECK" && 'F' !in detail;
    ConstraintMessageChar("CHECK", detail, 'F');
    ForeignKeyWordsSpelled();
    MissingCharNotContained(CheckError(constraint).message, "FOREIGN KEY" + " constraint failed", 'F');
  }

  /** GET: every product, or the mapped store failure. */
  method Get(db: Database, fault: Option<Error>) returns (resp: Response)
    ensures fault.Some? ==> resp == Failed(SqliteToHttpError(fault.value, "Failed to fetch products"))
    ensures fault.None? ==> resp == Ok(200, ProductRows(db.products.Values), None)
  {
    var rows := db.SelectProducts(fault);
    var pair := TryCatch.TryCatch(Executed(rows));
    if pair.error.Some? {
      return Failed(SqliteToHttpError(pair.error.value, "Failed to fetch products"));
    }
    return Ok(200, ProductRows(pair.value.value), None);
  }

  /**
   * POST: inserts the draft under `newId` (crypto.randomUUID's value) and answers
   * 201 with the row and its Location; a failed insert changes nothing and is
   * answered by `CreateFailure`.
   */
  method Post(db: Database, req: Request, newId: string, fault: Option<Error>) returns (resp: Response)
    requires db.Valid()
    modifies db
    ensures db.Valid() && db.categories == old(db.categories)
    ensures ValidateCreate(req).Failure? ==> resp == Failed(ValidateCreate(req).error) && unchanged(db)
    ensures ValidateCreate(req).Success? ==>
      var p := NewRow(newId, ValidateCreate(req).value);
      && (fault.Some? ==> resp == Failed(CreateFailure(fault.value)) && unchanged(db))
      && (fault.None? && !ProductRowOk(p) ==> resp == Failed(CreateValidationFailed) && unchanged(db))
      && (fault.None? && ProductRowOk(p) && newId in old(db.products) ==>
            resp == Failed(ResourceConflict) && unchanged(db))
      && (fault.None? && ProductRowOk(p) && newId !in old(db.products) && p.categoryName !in db.categories ==>
            resp == Failed(CategoryMissing) && unchanged(db))
      && (fault.None? && ProductRowOk(p) && newId !in old(db.products) && p.categoryName in db.categories ==>
            && resp == Ok(201, ProductRow(p), Some(Location("products", newId)))
            && db.products == old(db.products)[newId := p])
  {
    var v := ValidateCreate(req);
    if v.Failure? {
      return Failed(v.error);
    }
    var inserted := db.InsertProduct(NewRow(newId, v.value), fault);
    var pair := TryCatch.TryCatch(Executed(inserted));
    if pair.error.Some? {
      var failed := FailedProductCheck(NewRow(newId, v.value));
      if failed.Some? {
        CheckFailureOnCreate(failed.value);
      }
      DuplicateIdOnCreate();
      ForeignKeyFailureReading();
      return Failed(CreateFailure(pair.error.value));
    }
    var row := pair.value.value;
    return Ok(201, ProductRow(row), Some(Location("products", row.id)));
  }

  /**
   * PATCH: moves every stored product among the given ids to the category and
   * answers 200 with how many distinct rows changed. An id that matches no row
   * is ignored; when none matches, nothing is written and the foreign key is
   * never checked. A missing category is reported as 422.
   */
  method Patch(db: Database, req: Request, idOk: string -> bool, fault: Option<Error>) returns (resp: Response)
    requires db.Valid()
    modifies db
    ensures db.Valid() && db.categories == old(db.categories)
    ensures ValidateBulkUpdate(req, idOk).Failure? ==>
      resp == Failed(ValidateBulkUpdate(req, idOk).error) && unchanged(db)
    ensures ValidateBulkUpdate(req, idOk).Success? ==>
      var u := ValidateBulkUpdate(req, idOk).value;
      var matched := MatchedIds(u.ids, old(db.products).Keys);
      && (fault.Some? ==> resp == Failed(UpdateFailure(fault.value)) && unchanged(db))
      && (fault.None? && matched == {} ==> resp == Ok(200, Updated(0), None) && unchanged(db))
      && (fault.None? && matched != {} && !SqlNonEmpty(u.categoryName) ==>
            resp == Failed(UpdateValidationFailed) && unchanged(db))
      && (fault.None? && matched != {} && SqlNonEmpty(u.categoryName) && u.categoryName !in db.categories ==>
            resp == Failed(CategoryMissing) && unchanged(db))
      && (fault.None? && u.categoryName in db.categories ==>
            && resp == Ok(200, Updated(|matched|), None)
            && db.products == Recategorised(old(db.products), u.ids, u.categoryName))
  {
    var v := ValidateBulkUpdate(req, idOk);
    if v.Failure? {
      return Failed(v.error);
    }
    var run := db.UpdateCategoryWhereIdIn(v.value.ids, v.value.categoryName, fault);
    var pair := TryCatch.TryCatch(Executed(run));
    if pair.error.Some? {
      ForeignKeyFailureReading();
      CheckFailureOnUpdate();
      return Failed(UpdateFailure(pair.error.value));
    }
    return Ok(200, Updated(pair.value.value), None);
  }

  /**
   * DELETE: removes every stored product among the given ids, ignoring the
   * rest, and answers 204; a store failure changes nothing.
   */
  method Delete(db: Database, req: Request, idOk: string -> bool, fault: Option<Error>) returns (resp: Response)
    requires db.Valid()
    modifies db
    ensures db.Valid() && db.categories == old(db.categories)
    ensures ValidateBulkDelete(req, idOk).Failure? ==>
      resp == Failed(ValidateBulkDelete(req, idOk).error) && unchanged(db)
    ensures ValidateBulkDelete(req, idOk).Success? && fault.Some? ==>
      resp == Failed(SqliteToHttpError(fault.value, "Failed to delete products")) && unchanged(db)
    ensures ValidateBulkDelete(req, idOk).Success? && fault.None? ==>
      resp == NoContent && db.products == WithoutIds(old(db.products), ValidateBulkDelete(req, idOk).value)
  {
    var v := ValidateBulkDelete(req, idOk);
    if v.Failure? {
      return Failed(v.error);
    }
    var run := db.DeleteWhereIdIn(v.value, fault);
    var pair := TryCatch.TryCatch(Executed(run));
    if pair.error.Some? {
      return Failed(SqliteToHttpError(pair.error.value, "Failed to delete products"));
    }
    return NoContent;
  }
}
