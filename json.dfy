/** JSON values as `JSON.parse` produces them, and JavaScript numbers as the validators see them. */
module Json {
  import opened Wrappers

  /**
   * A JavaScript number, told apart only as far as `z.number().int().min(k)` can:
   * an integer, a non-integer lying strictly between `floor` and `floor + 1`,
   * an infinity, or NaN.
   */
  datatype Number =
    | Integral(i: int)
    | Fractional(floor: int)
    | Infinite(negative: bool)
    | NaN

  datatype Json =
    | JNull
    | JBool(b: bool)
    | JNumber(n: Number)
    | JString(s: string)
    | JArray(items: seq<Json>)
    | JObject(fields: map<string, Json>)

  /** The value at `key` when `v` is an object that has it. */
  function Field(v: Json, key: string): (r: Option<Json>)
    ensures r.Some? <==> v.JObject? && key in v.fields
  {
    if v.JObject? && key in v.fields then Some(v.fields[key]) else None
  }
}
