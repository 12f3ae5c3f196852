# Inventory manager: validation, error mapping, bulk mutations and cache invalidation

A Dafny model of the non-UI core of a small product/category inventory
manager. The real system is a Next.js REST API over a two-table SQLite store (via
drizzle and better-sqlite3), with a React client that uses TanStack Query.
The model covers:

- **Guards** (`Http`, `Uuid`, `Route`): the path-parameter guards
  (`validateUuidParam`, `validateNameParam`), the version-4 UUID pattern, the
  Content-Type guard and the JSON-body guard.
- **Error mapping** (`Http.SqliteToHttpError`): the first-match-wins mapping from a
  storage failure to an HTTP status, message and Retry-After header.
- **Error normalisation** (`TryCatch`): `formatError`, `tryCatch` and
  `asyncTryCatch`.
- **The store** (`Schema`): the two tables as a `Database` class, a set of category
  names plus a map from product id to product. The class keeps the table
  definitions as its invariant:
  - CHECK constraints on SQLite's space-only `trim` and its `length`, which counts the characters before the first NUL;
  - primary keys;
  - a foreign key with `ON DELETE CASCADE` and no update action.

  Each method is one SQL statement, which either commits whole or changes nothing.
- **The route handlers** (`CategoriesRoute`, `ProductsRoute`):
  - `GET` and `POST /api/categories`;
  - `GET`/`POST /api/products`, the bulk recategorise `PATCH /api/products` and the
    bulk `DELETE /api/products`.

  Each POST, PATCH and DELETE is a method on the store. Its contract gives
  the response for every path and the state each path leaves.
- **The client** (`Api`, `Hooks`):
  - the client's handling of error responses (`parseJsonOrThrow`, `throwIfNotOk`);
  - the request bodies of `updateCategory` and `updateProduct`;
  - the query keys, and which cached queries each mutation's `onSuccess` marks
    stale. The query cache is a class.
- **The dialogs** (`CategoryForm`, `ProductForm`): the category and product dialog
  schemas, their default values and what `onSubmit` sends.

Shared pieces:
- `Text`: the ECMAScript `trim` and SQLite's `trim`, ASCII lower-casing, substring
  search and decimal rendering.
- `Json`: JSON values, with JavaScript numbers reduced to what `z.number().int()`
  can tell apart.
- `Zod`: the few zod combinators the schemas use.

The environment enters as parameters:
- `fault` is a failure the store may raise on any statement (lock contention, a
  full disk, ...);
- `newId` is the value of `crypto.randomUUID()`;
- `idOk` is the `isUuidLike` refinement of the bulk schemas;
- `toNumber` is `Number(value)` in the price input.

Four behaviours of the code that the model keeps:

- db/schema.ts:20-22 declares only `onDelete: 'cascade'` on the products'
  foreign key, with no update action. So SQLite rejects renaming a category that
  products still refer to (`Schema.Database.RenameCategory`).
- The categories POST schema (app/api/categories/route.ts:25) checks only
  `min(1)`. The 32-unit cap is in the category dialog alone
  (components/dialog-form-category.tsx:36, `CategoryForm.ApiAcceptsLongerNames`).
- The bulk recategorise is one UPDATE (app/api/products/route.ts:102-108), and
  SQLite checks the foreign key only on rows the statement changes. So when no
  given id is stored, the PATCH answers 200 with `updated: 0`, even for a missing
  category (`ProductsRoute.Patch`).
- lib/http.ts:80-89 tests the busy signals before the constraint signals. So a
  message that mentions both is answered 503 (`Http.BusyOutranksConstraint`).

## Model

| member | source | states |
|---|---|---|
| Text.Trim | lib/http.ts:13 | The trim of a string is the slice between a blank prefix and a blank suffix, and it starts and ends with a non-blank |
| Text.TrimEmptyIff | lib/http.ts:33-34 | A trim is empty exactly when every character is blank |
| Text.TrimPadded | lib/http.ts:13 | Surrounding blanks of any length are removed and nothing else is |
| Text.JsTrimmedIsSqlTight | db/schema.ts:10 | A string left non-empty by the JavaScript trim is its own SQLite trim, and that trim is non-empty |
| Text.ToLowerIdempotent | lib/http.ts:77 | Lower-casing twice is lower-casing once |
| Text.DecimalRoundTrip | lib/api.ts:7 | The decimal rendering of a status reads back as that status |
| Uuid.MatchesPointwise | lib/http.ts:4 | The anchored pattern matches exactly the strings of its length that match atom by atom |
| Uuid.IsUuidV4Iff | lib/http.ts:3-7 | isUuidV4 accepts exactly: 36 characters, hyphens at 8/13/18/23, `4` at 14, one of 8/9/a/b at 19, hex digits elsewhere, in either case |
| Uuid.GroupsFormV4 | lib/http.ts:4 | Any 8-4-4-4-12 hex grouping with version 4 and a valid variant is accepted |
| Uuid.WrongVersionRejected | lib/http.ts:4 | A string without `4` at position 14 is rejected |
| Uuid.SeedIdAccepted | scripts/seed-db.ts:17 | The first seeded product id is a version-4 UUID |
| Uuid.VersionOneIdRejected | scripts/seed-db.ts:47 | The last seeded product id (version 1) is rejected |
| Uuid.UpperCaseAccepted | lib/http.ts:4 | Upper-case hex digits pass under the `i` flag |
| Uuid.UuidIsTight | lib/http.ts:4 | A version-4 UUID has 36 characters and no blank at either end |
| TryCatch.FormatError | lib/try-catch.ts:26-41 | An Error is returned unchanged (its code kept); a string, or an object with a string message, gives a fresh Error with that message; anything else gives "Unknown error"; only an Error instance carries a code |
| TryCatch.FormatErrorIdempotent | lib/try-catch.ts:27-28 | Normalising an already normalised error changes nothing |
| TryCatch.TryCatch | lib/try-catch.ts:61-68 | The error side is set exactly on a throw; a return gives `[null, value]`; a throw gives `[formatError(e), null]`. A returned `null`/`undefined` is a `None` inside the value side, so the source's `[null, null]` is `Pair(None, Some(None))` |
| TryCatch.AsyncTryCatch | lib/try-catch.ts:88-97 | The same tuple for a resolved or a rejected promise |
| TryCatch.AsyncTryCatchAgrees | lib/try-catch.ts:88-97 | Awaiting a settled promise inside try/catch gives what `tryCatch` gives for the equivalent thunk |
| Http.ValidateUuidParam | lib/http.ts:9-27 | `null` exactly when the trimmed id is a version-4 UUID; "Invalid {label} id" when nothing is left after trimming; "Invalid {label} id format" otherwise |
| Http.PaddedUuidAccepted | lib/http.ts:13-26 | A valid id surrounded by whitespace is accepted |
| Http.ValidateNameParam | lib/http.ts:29-40 | A 400 "Invalid {label} name" exactly when the name is all whitespace |
| Http.EnsureJsonRequest | lib/http.ts:42-52 | No error exactly when the lower-cased Content-Type (missing = empty) contains `application/json`; otherwise exactly the 415 "Content-Type must be application/json" |
| Http.MissingContentTypeRefused | lib/http.ts:45-50 | A request without Content-Type gets the 415 |
| Http.MixedCaseJsonAccepted | lib/http.ts:46 | `Application/JSON; charset=utf-8` passes |
| Http.ParseJsonBody | lib/http.ts:54-66 | Exactly one side is set; a throwing body read gives 400 "Invalid JSON body" |
| Http.SqliteToHttpError | lib/http.ts:68-151 | Status is one of 400/409/413/422/500/503/507; Retry-After is present exactly on a busy signal, and then the answer is the busy 503; a 500 carries the caller's fallback text; every other status carries one of the fixed messages |
| Http.SignalsDecideInOrder | lib/http.ts:79-147 | First match wins: busy → 503 retry; else full → 507; else read-only → 503; else constraint → its kind; else range → 400; else mismatch → 400; else too big → 413; else permission/auth/open code → 503. So full and read-only outrank a constraint failure |
| Http.FallbackOnlyWhenUnclassified | lib/http.ts:79-150 | The 500 is given exactly when no busy, full, read-only, constraint, range, mismatch, too-big or permission signal is present |
| Http.MessageCaseIgnored | lib/http.ts:76-77 | A message and its lower case map to the same answer |
| Http.CodeCaseMatters | lib/http.ts:81 | Codes are compared exactly: `sqlite_busy` falls through to the 500 |
| Http.BusyOutranksConstraint | lib/http.ts:80-89 | A message containing "busy" is answered busy, whatever else it says |
| Http.BusyConstraintMessage | lib/http.ts:80-89 | "database is busy: UNIQUE constraint failed" gets the busy answer |
| Http.ConstraintBranchDecides | lib/http.ts:79-108 | A message without 'b' or '-', under no busy/full/read-only code, carries no busy, full or read-only signal; with "constraint failed" in it, the constraint branch decides |
| Http.ConstraintStatuses | lib/http.ts:105-122 | Inside the constraint branch: 409 exactly for unique, primary-key or foreign-key, where "Resource conflict" means unique or primary key; 422 otherwise |
| Schema.SqlLengthStopsAtNul | db/schema.ts:10 | SQLite's `length` of a text (`SqlLength`) counts exactly the characters before the first NUL: none of them is NUL, and a NUL sits right after them when the count stops short |
| Schema.SqlNonEmptyIsTrimCheck | db/schema.ts:10 | The CHECK as `SqlNonEmpty` decides it is exactly `length(trim(x)) >= 1` with SQLite's space trim and NUL-stopped length; equivalently the trim is non-empty and does not start with NUL; and it implies the value is not all spaces |
| Schema.NulFailsCheck | db/schema.ts:10 | "\0" and " \0abc" fail the CHECK; "a\0" passes it |
| Schema.JsTrimmedPassesCheckIff | db/schema.ts:10 | A non-empty JavaScript trim passes the CHECK exactly when it does not start with NUL |
| Schema.FailedProductCheck | db/schema.ts:24-32 | The first violated products CHECK in declaration order, where a value whose space trim is empty or starts with NUL violates its CHECK; none exactly when the row passes all four |
| Schema.ConstraintMessageLowered | lib/http.ts:77-107 | A lower-cased SQLite constraint message still contains "constraint failed" and its lowered kind |
| Schema.Executed | app/api/products/route.ts:43-49 | A statement failure reaches `tryCatch` as the same SqliteError, a success as its value |
| Schema.MatchedAtMostGiven | app/api/products/route.ts:102-108 | A statement changes no more distinct rows than ids given |
| Schema.CascadeRemovesExactlyReferencing | db/schema.ts:20-22 | The cascade removes exactly the products of the deleted category and keeps the others unchanged |
| Schema.RecategorisedConsistent | db/schema.ts:14-33 | Moving products to an existing, CHECK-passing category keeps the tables consistent |
| Schema.RecategorisedNoMatch | app/api/products/route.ts:102-108 | An UPDATE that matches no id changes nothing |
| Schema.WithoutIdsConsistent | db/schema.ts:14-33 | Deleting products keeps the tables consistent |
| Schema.WithoutCategoryConsistent | db/schema.ts:20-22 | Deleting a category with its cascade keeps the tables consistent |
| Schema.Database.SelectCategories | app/api/categories/route.ts:10 | All category rows, or the injected failure |
| Schema.Database.SelectProducts | app/api/products/route.ts:16 | All product rows, or the injected failure |
| Schema.Database.InsertCategory | app/api/categories/route.ts:30-32 | Fault → failure; failed CHECK → CHECK error; taken name → no row, no change; otherwise the row is inserted and returned |
| Schema.Database.InsertProduct | app/api/products/route.ts:43-49 | CHECK, then primary key, then foreign key; a failure changes nothing; success adds exactly the row |
| Schema.Database.UpdateCategoryWhereIdIn | app/api/products/route.ts:102-108 | No match → 0 and no change (no CHECK or FK); else CHECK error, FK error, or the count of distinct stored ids and exactly those rows recategorised |
| Schema.Database.SetCategoryOfRows | app/api/products/route.ts:102-108 | The loop recategorises exactly the stored given ids and counts them |
| Schema.Database.DeleteWhereIdIn | app/api/products/route.ts:147-149 | Removes exactly the stored given ids, ignores others, returns their count; a fault changes nothing |
| Schema.Database.RemoveRows | app/api/products/route.ts:147-149 | The loop removes exactly the given ids and counts those that were stored |
| Schema.Database.DeleteCategory | db/schema.ts:20-22 | Deleting an existing category removes it and every product filed under it; a missing name changes nothing |
| Schema.Database.RenameCategory | db/schema.ts:20-22 | A rename fails on CHECK, on a taken name, or with a foreign-key error when products refer to the old name; otherwise (the same name, or a new free one for an unreferenced category) it succeeds with 1 and replaces the name; a missing name gives 0 and no change; products never change |
| Route.ReadJson | app/api/categories/route.ts:18-22 | 415 unless JSON is declared, then 400 when the body does not parse, else the parsed body |
| CategoriesRoute.InsertSchema | app/api/categories/route.ts:24-26 | Accepts exactly an object whose `name` is a string non-empty after trimming; yields the trimmed name |
| CategoriesRoute.ValidateCreate | app/api/categories/route.ts:17-28 | Exactly 415 unless JSON is declared; then exactly 400 when the body does not parse; then exactly 422 with the schema's issues when it rejects; else the trimmed name |
| CategoriesRoute.ValidatedNamePassesCheck | app/api/categories/route.ts:24-32 | A name the schema accepts is non-empty and passes the table's CHECK exactly when it does not start with NUL |
| CategoriesRoute.NulNameReachesCheck | app/api/categories/route.ts:24-32 | `{"name":"\u0000"}` passes the schema and fails the CHECK |
| CategoriesRoute.Get | app/api/categories/route.ts:9-15 | 200 with every category, or the mapped failure with "Failed to fetch categories" |
| CategoriesRoute.PostResult | app/api/categories/route.ts:17-48 | 201 with the row and its Location exactly when validation passed, no fault, the name passes the CHECK and is new, which adds the name; a name the CHECK rejects gives `SqliteToHttpError` of the CHECK error; 409 "Category already exists" for a taken name; a store fault gives `SqliteToHttpError(fault, "Failed to create category")`; a validation error is answered as is; no failure changes anything |
| CategoriesRoute.Post | app/api/categories/route.ts:17-48 | The handler's response and resulting categories are `PostResult`'s; products never change |
| CategoriesRoute.SecondPostConflicts | app/api/categories/route.ts:30-40 | Creating the same category twice: for a name the CHECK accepts, the second gets 409 and the name is stored once; otherwise both get the same CHECK error and nothing is stored |
| ProductsRoute.InsertSchema | app/api/products/route.ts:30-36 | Accepts exactly an object with trimmed non-empty name and category and a non-negative integer price; yields the trimmed draft |
| ProductsRoute.ClientIdIgnored | app/api/products/route.ts:35 | An `id` in the body never changes the schema's result |
| ProductsRoute.ValidateCreate | app/api/products/route.ts:24-39 | Exactly 415 unless JSON is declared; then exactly 400 when the body does not parse; then exactly 422 with the schema's issues when it rejects; else the draft |
| ProductsRoute.ValidatedRowPassesChecks | app/api/products/route.ts:41-49 | A validated draft with a UUID id passes all four CHECK constraints exactly when neither its name nor its category starts with NUL |
| ProductsRoute.UuidPassesCheck | app/api/products/route.ts:41-49 | A version-4 UUID passes the id CHECK |
| ProductsRoute.CheckFailureOnCreate | app/api/products/route.ts:55-59 | Every CHECK failure of an insert is answered 422 "Validation failed for product creation" |
| ProductsRoute.ForeignKeyMappedAsConflict | lib/http.ts:112-116 | The shared mapping alone calls the foreign-key failure 409 "Referential integrity conflict" |
| ProductsRoute.ForeignKeyFailureReading | app/api/products/route.ts:61-65 | Both product routes answer the foreign-key failure 422 "categoryName does not exist" |
| ProductsRoute.IdTakenNotSniffed | app/api/products/route.ts:51-67 | A duplicate-id failure matches neither sniffed message |
| ProductsRoute.IdTakenMappedAsConflict | lib/http.ts:109-111 | A duplicate id maps to 409 "Resource conflict" |
| ProductsRoute.DuplicateIdOnCreate | app/api/products/route.ts:41-67 | A taken random id is answered 409 on create |
| ProductsRoute.IdsFieldTrimmed | app/api/products/route.ts:86-89 | An accepted `ids` field yields one trimmed, accepted id per entry |
| ProductsRoute.BulkUpdateSchema | app/api/products/route.ts:86-91 | Accepts exactly a non-empty list of acceptable ids and a non-empty category; yields them trimmed |
| ProductsRoute.BulkDeleteSchema | app/api/products/route.ts:135-139 | Accepts exactly a non-empty list of acceptable ids; yields them trimmed |
| ProductsRoute.ValidateBulkUpdate | app/api/products/route.ts:78-95 | Exactly 415 unless JSON is declared; then exactly 400 when the body does not parse; then exactly 422 with the schema's issues when it rejects; else the validated update |
| ProductsRoute.ValidateBulkDelete | app/api/products/route.ts:128-143 | Exactly 415 unless JSON is declared; then exactly 400 when the body does not parse; then exactly 422 with the schema's issues when it rejects; else the validated ids |
| ProductsRoute.ValidatedCategoryPassesCheck | app/api/products/route.ts:90-108 | A validated category name passes the CHECK exactly when it does not start with NUL |
| ProductsRoute.CheckFailureOnUpdate | app/api/products/route.ts:110-121 | The bulk update's CHECK failure is answered 422 "Validation failed for product update" |
| ProductsRoute.CheckNotSniffedAsForeignKey | app/api/products/route.ts:112 | A CHECK message never contains "FOREIGN KEY constraint failed" |
| ProductsRoute.Get | app/api/products/route.ts:15-21 | 200 with every product, or the mapped failure with "Failed to fetch products" |
| ProductsRoute.Post | app/api/products/route.ts:23-76 | Validation error; or CHECK (a name or category starting with NUL) → 422, taken id → 409, missing category → 422, fault read by the route's own sniffing; all without change; else 201 with the row under the new id and its Location |
| ProductsRoute.Patch | app/api/products/route.ts:78-126 | Validation error; fault; no stored id matched → 200 `updated: 0` with no change; a category the CHECK rejects → 422 "Validation failed for product update"; missing category → 422 "categoryName does not exist"; else 200 with the number of distinct matched rows, exactly those recategorised |
| ProductsRoute.Delete | app/api/products/route.ts:128-154 | Validation error; fault → mapped error with no change; else 204 with exactly the stored given ids removed |
| Zod.TrimmedString | app/api/categories/route.ts:25 | Accepts exactly a trimmed UTF-16 length within the bounds; yields the trimmed string; a rejection has issues |
| Text.BmpUtf16Length | components/dialog-form-product.tsx:45-46 | For characters of the Basic Multilingual Plane the UTF-16 length is the character count |
| Text.EmojiCountTwice | components/dialog-form-product.tsx:45-46 | Three emoji are 3 characters and 6 code units |
| Zod.IntegerAtLeast | app/api/products/route.ts:32 | Accepts exactly an integer at least the minimum, in either check order |
| Zod.TrimmedStringArray | app/api/products/route.ts:87-89 | Accepts exactly a non-empty array of strings whose trims pass the refinement; yields the trims |
| Hooks.KeyShapes | lib/hooks.ts:17-22 | List keys have length 1 and detail keys length 2, so an exact list match never reaches a detail |
| Hooks.ProductFilters | lib/hooks.ts:215-220 | One exact filter per id, in order |
| Hooks.ProductFiltersMatch | lib/hooks.ts:215-220 | The per-id filters match exactly the detail keys of the given ids |
| Hooks.CreateCategoryInvalidates | lib/hooks.ts:60-64 | Create-category marks stale exactly the category list |
| Hooks.UpdateCategoryInvalidates | lib/hooks.ts:74-107 | Update-category marks stale exactly both lists, the old name's detail, the new name's detail when truthy, and every product detail |
| Hooks.UpdateCategorySparesOtherCategories | lib/hooks.ts:84-96 | No other category detail is touched |
| Hooks.DeleteCategoryInvalidates | lib/hooks.ts:116-138 | Delete-category marks stale exactly both lists, its detail and every product detail |
| Hooks.CreateProductInvalidates | lib/hooks.ts:151-155 | Create-product marks stale exactly the product list |
| Hooks.SingleProductInvalidates | lib/hooks.ts:169-200 | Update- and delete-product mark stale exactly the product list and that product's detail |
| Hooks.BulkInvalidates | lib/hooks.ts:209-247 | The bulk mutations mark stale exactly the product list and each given id's detail, never a category key |
| Hooks.InvalidatedExactly | lib/hooks.ts:74-107 | After `onSuccess` the invalidated keys are stale and every other cached key keeps its flag |
| Hooks.QueryCache.InvalidateQueries | lib/hooks.ts:61-64 | The cached keys stay; each key's flag becomes stale when the filter matches it |
| Hooks.QueryCache.OnSuccess | lib/hooks.ts:74-107 | Running the listed invalidations one by one leaves exactly `Invalidated(old, m)` |
| Api.FetchResponse.ReadJson | lib/api.ts:9 | The first read consumes the body and parses it (SyntaxError when it is not JSON); a second read rejects |
| Api.FetchResponse.ReadText | lib/api.ts:20 | The first read consumes the body and yields its text; a second read rejects |
| Api.DefaultMessageNamesStatus | lib/api.ts:7 | `HTTP {status} {statusText}` starts with "HTTP " and the status reads back from its digits |
| Api.ErrorField | lib/api.ts:10-17 | The `error` string exactly of a JSON object with a string `error` |
| Api.IntendedMessage | lib/api.ts:7-23 | The error field; else the default for JSON; else the raw text when non-empty; else the default |
| Api.ParseJsonOrThrowAsWritten | lib/api.ts:5-25 | On a failed response the thrown message is always the error field or the default, never the body text |
| Api.PlainTextErrorIsLost | lib/api.ts:18-23 | A 502 with text body "bad gateway": the code as written throws the default message, the corrected one throws "bad gateway" |
| Api.ParseJsonOrThrow | lib/api.ts:5-25 | An ok response yields its JSON; a failed one always throws `IntendedMessage` |
| Api.ThrowIfNotOk | lib/api.ts:27-31 | An ok response is left unread; a failed one is read and throws its `error` field, or else the default message, never the body text |
| Api.ThrowIfNotOkCorrected | lib/api.ts:27-31 | The same over the corrected parse: a failed response throws `IntendedMessage` |
| Api.PlainTextErrorIsLostOnDelete | lib/api.ts:18-31 | The 502 "bad gateway" through `throwIfNotOk`: as written the default message, corrected "bad gateway" |
| Api.RouteErrorReachesCaller | lib/api.ts:10-16 | A route's `{ error: m }` body is thrown as `m` |
| Api.CategoryUpdateRoundTrip | lib/api.ts:81-98 | The update-category request carries the name in the path and the new name in the body, nothing else; no new name gives `{}` |
| Api.UpdateProductRequest | lib/api.ts:143-150 | The body never holds `id` |
| Api.StringifyNumber | lib/api.ts:149 | `JSON.stringify` writes a finite number as itself and NaN or an infinity as `null` |
| Api.ProductUpdateRoundTrip | lib/api.ts:139-154 | The id is in the path only; each present field is under its own key, and nothing else; every parameter reads back unchanged except a non-finite price, which arrives as `null` and reads back as no price |
| Api.FullProductUpdate | lib/api.ts:143-150 | An update setting all three fields sends exactly those three keys; it reads back whole when the price is finite, and without the price otherwise |
| Api.NaNPriceSentAsNull | lib/api.ts:149 | `updateProduct({ id, price: NaN })` sends `{"price":null}` and the server reads no price |
| CategoryForm.FormSchema | components/dialog-form-category.tsx:31-37 | Accepts exactly a trimmed name of 1 to 32 UTF-16 code units; yields the trim |
| CategoryForm.FormRefinesApi | components/dialog-form-category.tsx:31-37 | Every name the form accepts, the categories POST schema accepts unchanged |
| CategoryForm.ApiAcceptsLongerNames | components/dialog-form-category.tsx:36 | A trimmed name longer than 32 code units passes the API only |
| CategoryForm.Submit | components/dialog-form-category.tsx:59-81 | Editing calls update with the old name and the trimmed new one; otherwise create with the trimmed name |
| CategoryForm.EditSendsAndRefreshesNewName | components/dialog-form-category.tsx:60-63 | An accepted edit sends the new name in the body and refreshes the old and the new detail |
| CategoryForm.EmptyDefaultRejected | components/dialog-form-category.tsx:56 | The new-category dialog's empty default does not validate |
| ProductForm.FormSchema | components/dialog-form-product.tsx:41-54 | Accepts exactly a trimmed name of 5 to 32 UTF-16 code units, a non-negative integer price and a non-empty trimmed category |
| ProductForm.CreateBody | components/dialog-form-product.tsx:98-99 | The create body is an object without `id` |
| ProductForm.FormRefinesApi | components/dialog-form-product.tsx:41-54 | Every payload the form accepts, the products POST schema accepts, yielding the same draft |
| ProductForm.ShortNamesPassOnlyTheApi | components/dialog-form-product.tsx:45 | A trimmed name of 1 to 4 code units passes the API only |
| ProductForm.EmojiNameAccepted | components/dialog-form-product.tsx:45 | A name of three emoji (six code units) meets `min(5)` |
| ProductForm.DefaultValues | components/dialog-form-product.tsx:78-82 | The product's fields when editing; `''`, `0`, `''` otherwise |
| ProductForm.NewFormRejected | components/dialog-form-product.tsx:78-82 | The untouched new-product form does not validate |
| ProductForm.ShortStoredNameBlocksEdit | components/dialog-form-product.tsx:79 | A stored product with a short name cannot be saved unchanged from the edit dialog |
| ProductForm.PriceInput | components/dialog-form-product.tsx:172-175 | An empty input becomes 0, anything else `Number(value)` |
| ProductForm.ClearedPriceAccepted | components/dialog-form-product.tsx:172-175 | Clearing the price leaves a price of 0 that the form accepts |
| ProductForm.Submit | components/dialog-form-product.tsx:85-108 | Editing sends `{ id, ...data }`; otherwise creates with `data` |
| ProductForm.EditSendsIdInPathOnly | components/dialog-form-product.tsx:86-88 | An accepted edit sends the id in the path only and exactly the three fields in the body |

## Left out

- `Text.ToLower` folds ASCII letters only, where JavaScript's `toLowerCase` folds all of Unicode. Some non-ASCII characters lower-case to ASCII letters (U+212A KELVIN SIGN to `k`, U+0130 to `i` and a combining dot), so for a message or Content-Type holding them the source's substring tests can succeed where the model's fail. Only ASCII messages and headers are modelled exactly.
- `encodeURIComponent` is not modelled. A `Location` header and a request path hold the raw name or id.
- `fetch`, network failures and `JSON.parse` are not modelled. A `FetchResponse` holds the body text and its parse result; a request body is a returned value or a throw.
- zod's rendering of issues into `error.message` is left abstract (`Message.Issues`). The dialogs' Ukrainian messages are not modelled.
- `crypto.randomUUID()` is the parameter `newId`.
- `isUuidLike` is the parameter `idOk`. The route imports it from lib/http.ts, but that file does not define it.
- JavaScript numbers are reduced to integer, fractional, infinite and NaN. `Number(value)` is the parameter `toNumber`. Of the serialisations, only `JSON.stringify` turning NaN and the infinities into `null` is modelled (`Api.StringifyNumber`); the digits it writes for a finite number are not.
- The routes under `[name]` and `[id]` (single-resource GET, PATCH, DELETE) are not part of this model. Only their request bodies on the client side are modelled.
- Concurrency, WAL mode and the 5-second busy timeout are not modelled. A busy, full or read-only condition is the injected `fault`.
- `console.log` in the PATCH handler is not modelled.
- `Schema.SqlLength` counts characters. SQLite counts code points and the model's strings hold UTF-16 units, but the two agree on whether the count is zero, which is all the CHECK constraints test.
- The rendering of the dialogs, toasts and `setOpen`/`form.reset` are not modelled.
- The list queries' fetch functions (`fetchCategories`, `fetchProducts`, `getCategory`, `getProduct`) and the delete and bulk request functions are not modelled. Their bodies are one `fetch` followed by `parseJsonOrThrow` or `throwIfNotOk`, which are modelled.
- `Api.ParseJsonOrThrow`: a successful response whose body is not JSON rejects with a SyntaxError, as the source does.
- `Hooks.QueryCache.OnSuccess`: the invalidations run one after another. The source starts them together and awaits `Promise.all`; the final state is the same, because each one only sets flags.

## Findings

| source | as written | input that shows it | evidently intended | confidence | as-written member | corrected member |
|---|---|---|---|---|---|---|
| lib/api.ts:18-23 | After `res.json()` rejects, the fallback calls `res.text()` on the same response. Under the Fetch standard the first read has already consumed the body, so `text()` rejects, the empty `catch {}` swallows that, and the message stays `HTTP {status} {statusText}`. `throwIfNotOk` (lib/api.ts:27-31) calls this code and inherits the loss. | A non-ok response (502) whose body is the non-JSON text "bad gateway" | A non-JSON error body becomes the thrown message | not executed | Api.ParseJsonOrThrowAsWritten, Api.ThrowIfNotOk, Api.PlainTextErrorIsLost, Api.PlainTextErrorIsLostOnDelete | Api.ParseJsonOrThrow, Api.ThrowIfNotOkCorrected |
