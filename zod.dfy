/**
 * The zod schema pieces the request and form validators are built from:
 * `z.string().trim().min(a).max(b)`, `z.number().int().min(k)` (checks in either
 * order), `z.array(z.string().trim().refine(p)).min(1)` and object field lookup.
 * A rejection carries its issues; zod's rendering of them into text is left abstract.
 */
module Zod {
  import opened Wrappers
  import opened Text
  import opened Json

  datatype PathItem = Key(name: string) | Index(i: nat)

  datatype IssueCode =
    | InvalidType
    | TooSmall(minimum: int)
    | TooBig(maximum: int)
    | NotInteger
    | Custom(message: string)

  datatype Issue = Issue(path: seq<PathItem>, code: IssueCode)

  type Issues = seq<Issue>

  /**
   * `z.string().trim().min(min)` and, when `max` is given, `.max(max)`, on a string
   * input. Both bounds are on the trimmed string's JavaScript `length`.
   */
  function TrimmedString(s: string, path: seq<PathItem>, min: nat, max: Option<nat>): (r: Result<string, Issues>)
    ensures r.Success? <==>
      min <= Utf16Length(Trim(JsBlank, s)) && (max.Some? ==> Utf16Length(Trim(JsBlank, s)) <= max.value)
    ensures r.Success? ==> r.value == Trim(JsBlank, s)
    ensures r.Failure? ==> r.error != []
  {
    var t := Trim(JsBlank, s);
    var issues :=
      (if Utf16Length(t) < min then [Issue(path, TooSmall(min))] else []) +
      (if max.Some? && Utf16Length(t) > max.value then [Issue(path, TooBig(max.value))] else []);
    if issues == [] then Success(t) else Failure(issues)
  }

  /** The same schema on a field that may be missing or not a string. */
  function StringField(v: Option<Json>, path: seq<PathItem>, min: nat, max: Option<nat>): (r: Result<string, Issues>)
    ensures r.Success? <==> v.Some? && v.value.JString? && TrimmedString(v.value.s, path, min, max).Success?
    ensures r.Success? ==> r.value == Trim(JsBlank, v.value.s)
  {
    if v.Some? && v.value.JString? then TrimmedString(v.value.s, path, min, max)
    else Failure([Issue(path, InvalidType)])
  }

  /** The number is below the integer `min`. */
  predicate Below(n: Number, min: int) {
    match n
    case Integral(i) => i < min
    case Fractional(f) => f < min
    case Infinite(negative) => negative
    case NaN => false
  }

  /**
   * `z.number().int().min(min)` (or `.min(min).int()` when `minFirst`) on a number:
   * NaN is a type error; otherwise both checks run and report in declaration order.
   */
  function IntegerAtLeast(n: Number, path: seq<PathItem>, min: int, minFirst: bool): (r: Result<int, Issues>)
    ensures r.Success? <==> n.Integral? && n.i >= min
    ensures r.Success? ==> r.value == n.i
    ensures r.Failure? ==> r.error != []
  {
    if n.NaN? then Failure([Issue(path, InvalidType)])
    else
      var intIssue := if n.Integral? then [] else [Issue(path, NotInteger)];
      var minIssue := if Below(n, min) then [Issue(path, TooSmall(min))] else [];
      var issues := if minFirst then minIssue + intIssue else intIssue + minIssue;
      if issues == [] then Success(n.i) else Failure(issues)
  }

  /** The same schema on a field that may be missing or not a number. */
  function IntegerField(v: Option<Json>, path: seq<PathItem>, min: int, minFirst: bool): (r: Result<int, Issues>)
    ensures r.Success? <==> v.Some? && v.value.JNumber? && v.value.n.Integral? && v.value.n.i >= min
    ensures r.Success? ==> r.value == v.value.n.i
  {
    if v.Some? && v.value.JNumber? then IntegerAtLeast(v.value.n, path, min, minFirst)
    else Failure([Issue(path, InvalidType)])
  }

  /** One entry of `z.array(z.string().trim().refine(ok, message))` passes. */
  predicate EntryOk(item: Json, ok: string -> bool) {
    item.JString? && ok(Trim(JsBlank, item.s))
  }

  /** The issues raised by the entries of an array from offset `from` on. */
  function EntryIssues(items: seq<Json>, path: seq<PathItem>, ok: string -> bool, message: string, from: nat): (r: Issues)
    requires from <= |items|
    ensures r == [] <==> forall i | from <= i < |items| :: EntryOk(items[i], ok)
    decreases |items| - from
  {
    if from == |items| then []
    else
      var item := items[from];
      var here :=
        if !item.JString? then [Issue(path + [Index(from)], InvalidType)]
        else if !ok(Trim(JsBlank, item.s)) then [Issue(path + [Index(from)], Custom(message))]
        else [];
      here + EntryIssues(items, path, ok, message, from + 1)
  }

  /** `z.array(z.string().trim().refine(ok, message)).min(1)`: yields the trimmed entries. */
  function TrimmedStringArray(v: Option<Json>, path: seq<PathItem>, ok: string -> bool, message: string): (r: Result<seq<string>, Issues>)
    ensures r.Success? <==>
      && v.Some? && v.value.JArray? && |v.value.items| >= 1
      && forall i | 0 <= i < |v.value.items| :: EntryOk(v.value.items[i], ok)
    ensures r.Success? ==>
      && |r.value| == |v.value.items|
      && forall i | 0 <= i < |r.value| :: r.value[i] == Trim(JsBlank, v.value.items[i].s) && ok(r.value[i])
  {
    if v.Some? && v.value.JArray? then
      var items := v.value.items;
      var issues := (if |items| < 1 then [Issue(path, TooSmall(1))] else []) + EntryIssues(items, path, ok, message, 0);
      if issues == [] then Success(seq(|items|, i requires 0 <= i < |items| && items[i].JString? => Trim(JsBlank, items[i].s)))
      else Failure(issues)
    else Failure([Issue(path, InvalidType)])
  }
}
