/**
 * lib/api.ts: how the client turns a failed response into the message it throws
 * (`parseJsonOrThrow`, `throwIfNotOk`), and the request bodies `updateCategory`
 * and `updateProduct` build. `fetch` itself is not modelled: a response is an
 * object holding what the server sent, whose body can be read once.
 */
module Api {
  import opened Wrappers
  import opened Text
  import opened Json

  /** Why an awaited call rejected. */
  datatype Rejection =
    | ErrorThrown(message: string)  // `throw new Error(message)`
    | SyntaxError                   // `res.json()` on a body that is not JSON
    | BodyAlreadyRead               // a second read of a body: the Fetch standard's TypeError

  /**
   * A Fetch `Response`. `parsed` is what `JSON.parse` makes of the body text
   * (`None` for a syntax error); the body stream is consumed by the first read.
   */
  class FetchResponse {
    const ok: bool
    const status: nat
    const statusText: string
    const text: string
    const parsed: Option<Json>
    var bodyUsed: bool

    constructor (ok: bool, status: nat, statusText: string, text: string, parsed: Option<Json>)
      requires ok <==> 200 <= status <= 299
      ensures this.ok == ok && this.status == status && this.statusText == statusText
      ensures this.text == text && this.parsed == parsed && !bodyUsed
    {
      this.ok := ok;
      this.status := status;
      this.statusText := statusText;
      this.text := text;
      this.parsed := parsed;
      bodyUsed := false;
    }

    /** `res.json()`: consumes the body, even when it turns out not to be JSON. */
    method ReadJson() returns (r: Result<Json, Rejection>)
      modifies this
      ensures bodyUsed
      ensures old(bodyUsed) ==> r == Failure(BodyAlreadyRead)
      ensures !old(bodyUsed) && parsed.Some? ==> r == Success(parsed.value)
      ensures !old(bodyUsed) && parsed.None? ==> r == Failure(SyntaxError)
    {
      if bodyUsed {
        return Failure(BodyAlreadyRead);
      }
      bodyUsed := true;
      if parsed.Some? {
        return Success(parsed.value);
      }
      return Failure(SyntaxError);
    }

    /** `res.text()`: consumes the body. */
    method ReadText() returns (r: Result<string, Rejection>)
      modifies this
      ensures bodyUsed
      ensures old(bodyUsed) ==> r == Failure(BodyAlreadyRead)
      ensures !old(bodyUsed) ==> r == Success(text)
    {
      if bodyUsed {
        return Failure(BodyAlreadyRead);
      }
      bodyUsed := true;
      return Success(text);
    }
  }

  /** The message thrown when the body says nothing better: `HTTP {status} {statusText}`. */
  function DefaultMessage(status: nat, statusText: string): string {
    "HTTP " + Decimal(status) + " " + statusText
  }

  /** The default message names the status, and it can be read back from it. */
  lemma DefaultMessageNamesStatus(status: nat, statusText: string)
    ensures var m := DefaultMessage(status, statusText);
      var digits := m[5..5 + |Decimal(status)|];
      && StartsWith(m, "HTTP ") && m[5 + |Decimal(status)|] == ' '
      && (forall i | 0 <= i < |digits| :: '0' <= digits[i] <= '9')
      && DecimalValue(digits) == status
  {
    var m := DefaultMessage(status, statusText);
    assert m[..5] == "HTTP ";
    assert m[5..5 + |Decimal(status)|] == Decimal(status);
    DecimalRoundTrip(status);
  }

  /** The `error` string of a parsed body that is an object with a string `error`. */
  function ErrorField(data: Option<Json>): (r: Option<string>)
    ensures r.Some? <==>
      data.Some? && data.value.JObject? && "error" in data.value.fields && data.value.fields["error"].JString?
    ensures r.Some? ==> r.value == data.value.fields["error"].s
  {
    if data.Some? && data.value.JObject? && "error" in data.value.fields && data.value.fields["error"].JString?
    then Some(data.value.fields["error"].s)
    else None
  }

  /**
   * The message a failed response should produce: the body's `error` string; the
   * default when the body is JSON without one; the raw text when the body is not
   * JSON and the text is non-empty; the default otherwise.
   */
  function IntendedMessage(res: FetchResponse): (m: string)
    reads res
    ensures ErrorField(res.parsed).Some? ==> m == ErrorField(res.parsed).value
    ensures res.parsed.Some? && ErrorField(res.parsed).None? ==> m == DefaultMessage(res.status, res.statusText)
    ensures res.parsed.None? && res.text != "" ==> m == res.text
    ensures res.parsed.None? && res.text == "" ==> m == DefaultMessage(res.status, res.statusText)
  {
    match res.parsed
    case Some(_) =>
      if ErrorField(res.parsed).Some? then ErrorField(res.parsed).value
      else DefaultMessage(res.status, res.statusText)
    case None =>
      if res.text != "" then res.text else DefaultMessage(res.status, res.statusText)
  }

  /**
   * `parseJsonOrThrow` as written: on a failed response it calls `res.json()`
   * and, when that rejects, `res.text()` on the same response. The first read
   * has already consumed the body, so the second always rejects, the inner
   * `catch {}` swallows it, and a non-JSON body never reaches the message.
   */
  method ParseJsonOrThrowAsWritten(res: FetchResponse) returns (r: Result<Json, Rejection>)
    requires !res.bodyUsed
    modifies res
    ensures res.bodyUsed
    ensures res.ok && res.parsed.Some? ==> r == Success(res.parsed.value)
    ensures res.ok && res.parsed.None? ==> r == Failure(SyntaxError)
    ensures !res.ok && ErrorField(res.parsed).Some? ==> r == Failure(ErrorThrown(ErrorField(res.parsed).value))
    ensures !res.ok && ErrorField(res.parsed).None? ==>
      r == Failure(ErrorThrown(DefaultMessage(res.status, res.statusText)))
  {
    if res.ok {
      r := res.ReadJson();
      return;
    }
    var message := DefaultMessage(res.status, res.statusText);
    var data := res.ReadJson();
    if data.Success? {
      var error := ErrorField(Some(data.value));
      if error.Some? {
        message := error.value;
      }
    } else {
      var text := res.ReadText();
      match text {
        case Success(t) =>
          if t != "" {
            message := t;
          }
        case Failure(_) =>
      }
    }
    return Failure(ErrorThrown(message));
  }

  /**
   * A 502 whose body is the plain text "bad gateway": the code as written throws
   * the default message instead of the text the fallback was written for.
   */
  method PlainTextErrorIsLost() returns (asWritten: Result<Json, Rejection>, corrected: Result<Json, Rejection>)
    ensures asWritten == Failure(ErrorThrown(DefaultMessage(502, "")))
    ensures corrected == Failure(ErrorThrown("bad gateway"))
    ensures asWritten != corrected
  {
    var res := new FetchResponse(false, 502, "", "bad gateway", None);
    asWritten := ParseJsonOrThrowAsWritten(res);
    var again := new FetchResponse(false, 502, "", "bad gateway", None);
    corrected := ParseJsonOrThrow(again);
    assert DefaultMessage(502, "")[0] != "bad gateway"[0];
  }

  /** The same 502 through `throwIfNotOk`: the code as written throws the default message there too. */
  method PlainTextErrorIsLostOnDelete() returns (asWritten: Result<(), Rejection>, corrected: Result<(), Rejection>)
    ensures asWritten == Failure(ErrorThrown(DefaultMessage(502, "")))
    ensures corrected == Failure(ErrorThrown("bad gateway"))
    ensures asWritten != corrected
  {
    var res := new FetchResponse(false, 502, "", "bad gateway", None);
    asWritten := ThrowIfNotOk(res);
    var again := new FetchResponse(false, 502, "", "bad gateway", None);
    corrected := ThrowIfNotOkCorrected(again);
    assert DefaultMessage(502, "")[0] != "bad gateway"[0];
  }

  /**
   * `parseJsonOrThrow` as intended: a successful response yields its JSON; a
   * failed one always throws, with the `IntendedMessage`. The body is read once,
   * as text, and parsed from that text.
   */
  method ParseJsonOrThrow(res: FetchResponse) returns (r: Result<Json, Rejection>)
    requires !res.bodyUsed
    modifies res
    ensures res.bodyUsed
    ensures res.ok && res.parsed.Some? ==> r == Success(res.parsed.value)
    ensures res.ok && res.parsed.None? ==> r == Failure(SyntaxError)
    ensures !res.ok ==> r == Failure(ErrorThrown(IntendedMessage(res)))
  {
    if res.ok {
      r := res.ReadJson();
      return;
    }
    var message := DefaultMessage(res.status, res.statusText);
    var text := res.ReadText();
    match res.parsed {
      case Some(data) =>
        var error := ErrorField(Some(data));
        if error.Some? {
          message := error.value;
        }
      case None =>
        if text.value != "" {
          message := text.value;
        }
    }
    return Failure(ErrorThrown(message));
  }

  /**
   * `throwIfNotOk` as written: a successful response is left unread; a failed one
   * goes through `ParseJsonOrThrowAsWritten`, so it throws the body's `error`
   * string or the default message, and never the body text.
   */
  method ThrowIfNotOk(res: FetchResponse) returns (r: Result<(), Rejection>)
    requires !res.bodyUsed
    modifies res
    ensures res.ok ==> r == Success(()) && !res.bodyUsed
    ensures !res.ok ==> res.bodyUsed
    ensures !res.ok && ErrorField(res.parsed).Some? ==> r == Failure(ErrorThrown(ErrorField(res.parsed).value))
    ensures !res.ok && ErrorField(res.parsed).None? ==>
      r == Failure(ErrorThrown(DefaultMessage(res.status, res.statusText)))
  {
    if res.ok {
      return Success(());
    }
    var parsed := ParseJsonOrThrowAsWritten(res);
    return Failure(parsed.error);
  }

  /** `throwIfNotOk` over the corrected `ParseJsonOrThrow`: a failed response throws the `IntendedMessage`. */
  method ThrowIfNotOkCorrected(res: FetchResponse) returns (r: Result<(), Rejection>)
    requires !res.bodyUsed
    modifies res
    ensures res.ok ==> r == Success(()) && !res.bodyUsed
    ensures !res.ok ==> r == Failure(ErrorThrown(IntendedMessage(res))) && res.bodyUsed
  {
    if res.ok {
      return Success(());
    }
    var parsed := ParseJsonOrThrow(res);
    return Failure(parsed.error);
  }

  /** The routes answer every failure with `{ error: message }`: that message is what the client throws. */
  lemma RouteErrorReachesCaller(res: FetchResponse, message: string)
    requires res.parsed == Some(JObject(map["error" := JString(message)]))
    ensures IntendedMessage(res) == message
  {
    assert ErrorField(res.parsed) == Some(message);
  }

  /** A request the client sends: a path and a JSON object body. */
  datatype Outgoing = Outgoing(path: string, body: map<string, Json>)

  const CategoriesPath := "/api/categories/"
  const ProductsPath := "/api/products/"

  /** `updateCategory`: PATCH the named category with `{ name: newName }`, or `{}` when no new name is a string. */
  function UpdateCategoryRequest(name: string, newName: Option<string>): Outgoing {
    Outgoing(CategoriesPath + name, if newName.Some? then map["name" := JString(newName.value)] else map[])
  }

  /** What the server reads from an update-category request: the name in the path and the optional new name. */
  function ReadCategoryUpdate(r: Outgoing): Option<(string, Option<string>)> {
    if |r.path| >= |CategoriesPath| && r.path[..|CategoriesPath|] == CategoriesPath
       && r.body.Keys <= {"name"} && ("name" in r.body ==> r.body["name"].JString?)
    then Some((r.path[|CategoriesPath|..], if "name" in r.body then Some(r.body["name"].s) else None))
    else None
  }

  /** The update-category request carries exactly the name and the new name: nothing is lost or added. */
  lemma CategoryUpdateRoundTrip(name: string, newName: Option<string>)
    ensures ReadCategoryUpdate(UpdateCategoryRequest(name, newName)) == Some((name, newName))
    ensures newName.None? ==> UpdateCategoryRequest(name, newName).body == map[]
  {
    var r := UpdateCategoryRequest(name, newName);
    assert r.path[..|CategoriesPath|] == CategoriesPath;
    assert r.path[|CategoriesPath|..] == name;
  }

  /** The parameters of `updateProduct`: the id and the fields to change. */
  datatype ProductChanges = ProductChanges(id: string, name: Option<string>, price: Option<Number>, categoryName: Option<string>)

  /** A number a JSON text can hold: `JSON.stringify` writes NaN and the infinities as `null`. */
  predicate Finite(n: Number) {
    n.Integral? || n.Fractional?
  }

  /** `JSON.stringify` of a number, as `JSON.parse` reads it back. */
  function StringifyNumber(n: Number): (j: Json)
    ensures Finite(n) ==> j == JNumber(n)
    ensures !Finite(n) ==> j == JNull
  {
    if Finite(n) then JNumber(n) else JNull
  }

  /**
   * `const { id, ...updates } = params`: the id goes into the path, the rest
   * into the body, as `JSON.stringify(updates)` writes it.
   */
  function UpdateProductRequest(p: ProductChanges): (r: Outgoing)
    ensures "id" !in r.body
  {
    Outgoing(ProductsPath + p.id,
      (if p.name.Some? then map["name" := JString(p.name.value)] else map[])
      + (if p.price.Some? then map["price" := StringifyNumber(p.price.value)] else map[])
      + (if p.categoryName.Some? then map["categoryName" := JString(p.categoryName.value)] else map[]))
  }

  function StringMember(body: map<string, Json>, key: string): Option<string> {
    if key in body && body[key].JString? then Some(body[key].s) else None
  }

  /** What the server reads from an update-product request. */
  function ReadProductUpdate(r: Outgoing): Option<ProductChanges> {
    if |r.path| >= |ProductsPath| && r.path[..|ProductsPath|] == ProductsPath then
      Some(ProductChanges(
        r.path[|ProductsPath|..],
        StringMember(r.body, "name"),
        if "price" in r.body && r.body["price"].JNumber? then Some(r.body["price"].n) else None,
        StringMember(r.body, "categoryName")))
    else None
  }

  /** The price the server reads back: a finite one unchanged, a non-finite one lost to `null`. */
  function SentPrice(price: Option<Number>): (r: Option<Number>)
    ensures price.Some? && Finite(price.value) ==> r == price
    ensures price.None? || !Finite(price.value) ==> r.None?
  {
    if price.Some? && Finite(price.value) then price else None
  }

  /**
   * The update-product request carries every parameter: the id in the path and
   * only there, each present field in the body under its own key, and nothing else.
   * Only a non-finite price is lost: it arrives as `null`.
   */
  lemma ProductUpdateRoundTrip(p: ProductChanges)
    ensures ReadProductUpdate(UpdateProductRequest(p)) == Some(p.(price := SentPrice(p.price)))
    ensures p.price.None? || Finite(p.price.value) ==> ReadProductUpdate(UpdateProductRequest(p)) == Some(p)
    ensures UpdateProductRequest(p).body.Keys ==
      (if p.name.Some? then {"name"} else {}) + (if p.price.Some? then {"price"} else {})
      + (if p.categoryName.Some? then {"categoryName"} else {})
  {
    var r := UpdateProductRequest(p);
    assert r.path[..|ProductsPath|] == ProductsPath;
    assert r.path[|ProductsPath|..] == p.id;
  }

  /** An update that sets all three fields sends exactly those three keys. */
  lemma FullProductUpdate(p: ProductChanges)
    requires p.name.Some? && p.price.Some? && p.categoryName.Some?
    ensures UpdateProductRequest(p).path == ProductsPath + p.id
    ensures UpdateProductRequest(p).body.Keys == {"name", "price", "categoryName"}
    ensures Finite(p.price.value) ==> ReadProductUpdate(UpdateProductRequest(p)) == Some(p)
    ensures !Finite(p.price.value) ==> ReadProductUpdate(UpdateProductRequest(p)) == Some(p.(price := None))
  {
    ProductUpdateRoundTrip(p);
  }

  /** `updateProduct({ id, price: NaN })` sends `{"price":null}`, and the server reads no price. */
  lemma NaNPriceSentAsNull(id: string)
    ensures UpdateProductRequest(ProductChanges(id, None, Some(NaN), None)).body == map["price" := JNull]
    ensures ReadProductUpdate(UpdateProductRequest(ProductChanges(id, None, Some(NaN), None))) ==
      Some(ProductChanges(id, None, None, None))
  {
    ProductUpdateRoundTrip(ProductChanges(id, None, Some(NaN), None));
  }
}
