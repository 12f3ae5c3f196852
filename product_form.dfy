/**
 * components/dialog-form-product.tsx: the product dialog's `formSchema`, its
 * default values, the price input's empty-to-0 rule and what `onSubmit` asks
 * for. The form is stricter than the API: names need 5 to 32 code units after
 * trimming, where the products POST schema takes any non-empty name.
 */
module ProductForm {
  import opened Wrappers
  import opened Text
  import opened Json
  import opened Zod
  import Schema
  import Api
  import Route
  import ProductsRoute

  /** The form's values: `price` holds whatever number the input produced. */
  datatype Values = Values(name: string, price: Number, categoryName: string)

  /**
   * `formSchema`: the name trimmed to 5..32 UTF-16 code units, the price checked by
   * `.min(0)` and then `.int()`, the category trimmed and non-empty; zod reports
   * the issues of every field together.
   */
  function FormSchema(v: Values): (r: Result<ProductsRoute.Draft, Issues>)
    ensures r.Success? <==>
      && 5 <= Utf16Length(Trim(JsBlank, v.name)) <= 32
      && v.price.Integral? && v.price.i >= 0
      && |Trim(JsBlank, v.categoryName)| >= 1
    ensures r.Success? ==>
      r.value == ProductsRoute.Draft(Trim(JsBlank, v.name), v.price.i, Trim(JsBlank, v.categoryName))
  {
    var name := TrimmedString(v.name, [Key("name")], 5, Some(32));
    var price := IntegerAtLeast(v.price, [Key("price")], 0, true);
    var category := TrimmedString(v.categoryName, [Key("categoryName")], 1, None);
    if name.Success? && price.Success? && category.Success? then
      Success(ProductsRoute.Draft(name.value, price.value, category.value))
    else
      Failure(Route.IssuesOf(name) + Route.IssuesOf(price) + Route.IssuesOf(category))
  }

  /** `JSON.stringify(data)`, the body `createProduct` posts: the three fields and no id. */
  function CreateBody(d: ProductsRoute.Draft): (body: Json)
    ensures body.JObject? && "id" !in body.fields
  {
    JObject(map["name" := JString(d.name), "price" := JNumber(Integral(d.price)),
                "categoryName" := JString(d.categoryName)])
  }

  /** A three-field body answers each key with its own value (the keys differ in length). */
  lemma BodyFields(name: Json, price: Json, category: Json)
    ensures var body := JObject(map["name" := name, "price" := price, "categoryName" := category]);
      && Field(body, "name") == Some(name) && body.fields["name"] == name
      && Field(body, "price") == Some(price) && body.fields["price"] == price
      && Field(body, "categoryName") == Some(category) && body.fields["categoryName"] == category
  {
    assert |"name"| == 4 && |"price"| == 5 && |"categoryName"| == 12;
  }

  /** Every payload the form accepts, the products POST schema accepts, and it yields the same draft. */
  lemma FormRefinesApi(v: Values)
    requires FormSchema(v).Success?
    ensures ProductsRoute.InsertSchema(CreateBody(FormSchema(v).value)) == Success(FormSchema(v).value)
  {
    var d := FormSchema(v).value;
    var body := CreateBody(d);
    BodyFields(JString(d.name), JNumber(Integral(d.price)), JString(d.categoryName));
    TrimTight(JsBlank, d.name);
    TrimTight(JsBlank, d.categoryName);
    assert Route.TrimmedNonEmpty(Field(body, "name"));
    assert ProductsRoute.NonNegativeInteger(Field(body, "price"));
    assert Route.TrimmedNonEmpty(Field(body, "categoryName"));
  }

  /** The converse fails exactly for short names: a trimmed name of 1 to 4 code units passes the API only. */
  lemma ShortNamesPassOnlyTheApi(v: Values)
    requires 1 <= Utf16Length(Trim(JsBlank, v.name)) <= 4
    requires v.price.Integral? && v.price.i >= 0 && |Trim(JsBlank, v.categoryName)| >= 1
    ensures FormSchema(v).Failure?
    ensures ProductsRoute.InsertSchema(JObject(map["name" := JString(v.name), "price" := JNumber(v.price),
                                                   "categoryName" := JString(v.categoryName)])).Success?
  {
    var body := JObject(map["name" := JString(v.name), "price" := JNumber(v.price),
                            "categoryName" := JString(v.categoryName)]);
    BodyFields(JString(v.name), JNumber(v.price), JString(v.categoryName));
    assert Route.TrimmedNonEmpty(Field(body, "name"));
    assert ProductsRoute.NonNegativeInteger(Field(body, "price"));
    assert Route.TrimmedNonEmpty(Field(body, "categoryName"));
  }

  /** `defaultValues`: the product's own fields when editing, `''`, `0` and `''` otherwise. */
  function DefaultValues(product: Option<Schema.Product>): (v: Values)
    ensures product.None? ==> v == Values("", Integral(0), "")
    ensures product.Some? ==>
      v == Values(product.value.name, Integral(product.value.price), product.value.categoryName)
  {
    match product
    case None => Values("", Integral(0), "")
    case Some(p) => Values(p.name, Integral(p.price), p.categoryName)
  }

  /** The untouched form for a new product does not validate: the name and the category are empty. */
  lemma NewFormRejected()
    ensures FormSchema(DefaultValues(None)).Failure?
  {
    TrimEmptyIff(JsBlank, "");
  }

  /**
   * A stored product the API let through with a short name cannot be saved from
   * the edit dialog until the name is lengthened.
   */
  lemma ShortStoredNameBlocksEdit(p: Schema.Product)
    requires Utf16Length(Trim(JsBlank, p.name)) < 5
    ensures FormSchema(DefaultValues(Some(p))).Failure?
  {
  }

  /** Lengths are UTF-16 code units: a name of three emoji is six units long and meets `min(5)`. */
  lemma EmojiNameAccepted()
    ensures FormSchema(Values("\U{1F600}\U{1F600}\U{1F600}", Integral(0), "c")).Success?
  {
    var e := "\U{1F600}\U{1F600}\U{1F600}";
    assert !JsBlank(e[0]) && !JsBlank(e[2]);
    TrimTight(JsBlank, e);
    TrimTight(JsBlank, "c");
    EmojiCountTwice();
  }

  /**
   * The price input's `onChange`: an empty input becomes 0, anything else goes
   * through `Number(value)`, which is left as the parameter `toNumber`.
   */
  function PriceInput(value: string, toNumber: string -> Number): (n: Number)
    ensures value == "" ==> n == Integral(0)
    ensures value != "" ==> n == toNumber(value)
  {
    if value == "" then Integral(0) else toNumber(value)
  }

  /** Clearing the price field leaves a price the form accepts. */
  lemma ClearedPriceAccepted(v: Values, toNumber: string -> Number)
    ensures var cleared := Values(v.name, PriceInput("", toNumber), v.categoryName);
      FormSchema(cleared).Success? <==>
        5 <= Utf16Length(Trim(JsBlank, v.name)) <= 32 && |Trim(JsBlank, v.categoryName)| >= 1
    ensures var cleared := Values(v.name, PriceInput("", toNumber), v.categoryName);
      FormSchema(cleared).Success? ==> FormSchema(cleared).value.price == 0
  {
  }

  /** What `onSubmit` calls. */
  datatype Call =
    | CreateProductCall(body: Json)
    | UpdateProductCall(changes: Api.ProductChanges)

  /**
   * `onSubmit` after the resolver ran: when editing, update with
   * `{ id: product.id, ...data }`; otherwise create with `data`, which has no id.
   */
  function Submit(product: Option<Schema.Product>, v: Values): (r: Result<Call, Issues>)
    ensures r.Success? <==> FormSchema(v).Success?
    ensures r.Success? && product.None? ==> r.value == CreateProductCall(CreateBody(FormSchema(v).value))
    ensures r.Success? && product.Some? ==>
      var d := FormSchema(v).value;
      r.value == UpdateProductCall(Api.ProductChanges(product.value.id, Some(d.name), Some(Integral(d.price)),
                                                      Some(d.categoryName)))
  {
    match FormSchema(v)
    case Failure(issues) => Failure(issues)
    case Success(d) =>
      if product.Some? then
        Success(UpdateProductCall(Api.ProductChanges(product.value.id, Some(d.name), Some(Integral(d.price)),
                                                     Some(d.categoryName))))
      else Success(CreateProductCall(CreateBody(d)))
  }

  /**
   * An accepted edit sends the product's id in the path only and all three
   * validated fields in the body.
   */
  lemma EditSendsIdInPathOnly(p: Schema.Product, v: Values)
    requires FormSchema(v).Success?
    ensures var r := Api.UpdateProductRequest(Submit(Some(p), v).value.changes);
      && r.path == Api.ProductsPath + p.id
      && r.body.Keys == {"name", "price", "categoryName"}
      && Api.ReadProductUpdate(r).Some? && Api.ReadProductUpdate(r).value.id == p.id
  {
    var d := FormSchema(v).value;
    var c := Api.ProductChanges(p.id, Some(d.name), Some(Integral(d.price)), Some(d.categoryName));
    assert Submit(Some(p), v).value.changes == c;
    Api.FullProductUpdate(c);
  }
}
