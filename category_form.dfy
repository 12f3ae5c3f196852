/**
 * components/dialog-form-category.tsx: the category dialog's `formSchema` and
 * what `onSubmit` asks for. The form is stricter than the API: it caps the
 * trimmed name at 32 UTF-16 code units, the categories POST schema does not.
 */
module CategoryForm {
  import opened Wrappers
  import opened Text
  import opened Json
  import opened Zod
  import Hooks
  import Api
  import CategoriesRoute

  /** `z.string().trim().min(1).max(32)` on the name field. */
  function FormSchema(name: string): (r: Result<string, Issues>)
    ensures r.Success? <==> 1 <= Utf16Length(Trim(JsBlank, name)) <= 32
    ensures r.Success? ==> r.value == Trim(JsBlank, name)
  {
    TrimmedString(name, [Key("name")], 1, Some(32))
  }

  /** `JSON.stringify({ name })`, the body `createCategory` posts. */
  function CreateBody(name: string): Json {
    JObject(map["name" := JString(name)])
  }

  /** Every name the form accepts, the categories POST schema accepts, and it stores the same name. */
  lemma FormRefinesApi(input: string)
    requires FormSchema(input).Success?
    ensures CategoriesRoute.InsertSchema(CreateBody(FormSchema(input).value)) == Success(FormSchema(input).value)
  {
    TrimIdempotent(JsBlank, input);
  }

  /** The converse fails: a trimmed name longer than 32 code units passes the API and only the API. */
  lemma ApiAcceptsLongerNames(input: string)
    requires Utf16Length(Trim(JsBlank, input)) > 32
    ensures FormSchema(input).Failure?
    ensures CategoriesRoute.InsertSchema(CreateBody(input)).Success?
  {
  }

  /**
   * `onSubmit` after the resolver ran: with a category being edited it calls
   * update with the old name and the trimmed input as the new name; otherwise
   * it calls create with the trimmed input.
   */
  function Submit(category: Option<string>, input: string): (r: Result<Hooks.Mutation, Issues>)
    ensures r.Success? <==> FormSchema(input).Success?
    ensures r.Success? && category.Some? ==>
      r.value == Hooks.UpdateCategory(category.value, Some(Trim(JsBlank, input)))
    ensures r.Success? && category.None? ==> r.value == Hooks.CreateCategory(Trim(JsBlank, input))
  {
    match FormSchema(input)
    case Failure(issues) => Failure(issues)
    case Success(name) =>
      if category.Some? then Success(Hooks.UpdateCategory(category.value, Some(name)))
      else Success(Hooks.CreateCategory(name))
  }

  /**
   * An accepted edit always carries a non-empty new name: the PATCH body holds
   * it, and the cache refreshes the detail under the new name as well as under
   * the old one.
   */
  lemma EditSendsAndRefreshesNewName(name: string, input: string)
    requires FormSchema(input).Success?
    ensures var newName := FormSchema(input).value;
      && Submit(Some(name), input) == Success(Hooks.UpdateCategory(name, Some(newName)))
      && Api.UpdateCategoryRequest(name, Some(newName)).body == map["name" := JString(newName)]
      && Hooks.Invalidates(Hooks.UpdateCategory(name, Some(newName)), Hooks.CategoryKey(newName))
      && Hooks.Invalidates(Hooks.UpdateCategory(name, Some(newName)), Hooks.CategoryKey(name))
  {
    var newName := FormSchema(input).value;
    Hooks.UpdateCategoryInvalidates(name, Some(newName), Hooks.CategoryKey(newName));
    Hooks.UpdateCategoryInvalidates(name, Some(newName), Hooks.CategoryKey(name));
  }

  /** The dialog opens on `category?.name ?? ''`: a new category's empty field does not validate. */
  function DefaultName(category: Option<string>): string {
    if category.Some? then category.value else ""
  }

  lemma EmptyDefaultRejected()
    ensures FormSchema(DefaultName(None)).Failure?
  {
    TrimEmptyIff(JsBlank, "");
  }
}
